TestResult.DisplayName,TestResult.Outcome,TestResult.Duration,TestResult.ResourceCount,RandomSeed
CasesRoute.List (well-formedness),Passed,00:00:00.8738236,2067691,3
CaseRoute.Apply (well-formedness),Passed,00:00:00.4264844,539167,3
TriageRoute.Submit (well-formedness),Passed,00:00:00.3959511,561939,3
TriageRoute.Post (well-formedness),Passed,00:00:00.3724838,683167,3
Classifier.Normalise (well-formedness),Passed,00:00:00.3362214,366316,3
Validators.ParseUpdateCase (well-formedness),Passed,00:00:00.3358279,682193,3
TriageRoute.BlankDescriptionReachesClassifier (correctness),Passed,00:00:00.3125581,823355,3
TriageRoute.SuccessfulSubmission (correctness),Passed,00:00:00.3061556,552817,3
TriageRoute.ClassifierFailureWritesNothing (well-formedness),Passed,00:00:00.3045588,413560,3
TriageRoute.SuccessfulSubmission (well-formedness),Passed,00:00:00.2852118,493744,3
Validators.UpdateStatusField (correctness),Passed,00:00:00.2767372,793142,3
TriageRoute.ClassifierFailureWritesNothing (correctness),Passed,00:00:00.2758545,456680,3
TriageForm.ServerReadsSubmission (correctness),Passed,00:00:00.2706449,185541,3
TriageRoute.BlankDescriptionReachesClassifier (well-formedness),Passed,00:00:00.2643381,438270,3
TriageRoute.AuditFailureLeavesCase (well-formedness),Passed,00:00:00.2630146,414761,3
Validators.UpdateOverrideField (correctness),Passed,00:00:00.2582742,749018,3
TriageRoute.AuditFailureLeavesCase (correctness),Passed,00:00:00.2557665,501317,3
TriageRoute.InvalidBodyIs500 (well-formedness),Passed,00:00:00.2553106,417105,3
Validators.ParseRegister (well-formedness),Passed,00:00:00.2462151,460941,3
Triage.DetectRedFlags (correctness),Passed,00:00:00.2442402,964669,3
Validators.ParseStructuredData (well-formedness),Passed,00:00:00.2423517,404819,3
Validators.UpdateNotesField (correctness),Passed,00:00:00.2365820,767932,3
TriageForm.AcceptedTextPassesServer (well-formedness),Passed,00:00:00.2364239,143328,3
VoiceRecorder.FormatZero (correctness),Passed,00:00:00.2292737,723817,3
AuthRoutes.Register (well-formedness),Passed,00:00:00.2262427,518791,3
TriageRoute.InvalidBodyIs500 (correctness),Passed,00:00:00.2156520,424716,3
Validators.RegisterRequiredFields (correctness),Passed,00:00:00.2047706,614953,3
AuthRoutes.UnknownEmailLooksLikeWrongPassword (well-formedness),Passed,00:00:00.1851360,144843,3
CasesRoute.ListedIffMatching (correctness),Passed,00:00:00.1843553,184771,3
CaseRoute.Patch (well-formedness),Passed,00:00:00.1800112,377717,3
Classifier.ProcessTriage (well-formedness),Passed,00:00:00.1776002,298457,3
CaseRoute.PatchThenGet (correctness),Passed,00:00:00.1755882,307242,3
AuthRoutes.FindByEmail (well-formedness),Passed,00:00:00.1725880,46775,3
Validators.UpdateReasonField (correctness),Passed,00:00:00.1698309,485361,3
Text.Trim (well-formedness),Passed,00:00:00.1635334,845882,3
CaseRoute.Find (well-formedness),Passed,00:00:00.1633187,151736,3
Json.OptionalMember (well-formedness),Passed,00:00:00.1609641,42220,3
Dashboard.DisplayedIsSelection (correctness),Passed,00:00:00.1574122,144341,3
AuthRoutes.Public (well-formedness),Passed,00:00:00.1559190,23720,3
Classifier.CoerceLevel (well-formedness),Passed,00:00:00.1554143,80791,3
Dashboard.PassesStatus (well-formedness),Passed,00:00:00.1548325,28459,3
Classifier.Interpret (well-formedness),Passed,00:00:00.1523932,298926,3
TriageForm.AcceptedTextPassesServer (correctness),Passed,00:00:00.1492180,156209,3
CaseRoute.PatchThenGet (well-formedness),Passed,00:00:00.1446689,243452,3
AuthRoutes.UnknownEmailLooksLikeWrongPassword (correctness),Passed,00:00:00.1435408,159172,3
AuthRoutes.RegisterThenLogin (well-formedness),Passed,00:00:00.1428388,236650,3
CasesRoute.Get (well-formedness),Passed,00:00:00.1422213,211127,3
Seqs.CountIsFilterLength (correctness),Passed,00:00:00.1412837,61077,3
CasesRoute.StaffKey (well-formedness),Passed,00:00:00.1399623,61244,3
CasesRoute.Matches (well-formedness),Passed,00:00:00.1392041,48186,3
Dashboard.NoFiltersShowsAll (correctness),Passed,00:00:00.1390091,68322,3
Validators.ParseTriageInput (well-formedness),Passed,00:00:00.1346565,231193,3
TriageRoute.NewCase (well-formedness),Passed,00:00:00.1344912,68776,3
CasesRoute.EmptyParameterIgnored (correctness),Passed,00:00:00.1344533,258969,3
Seqs.IsSubsequence (well-formedness),Passed,00:00:00.1327438,14817,3
Seqs.SubsequenceReflexive (correctness),Passed,00:00:00.1320973,14315,3
Dashboard.EmergencyCardMatchesCounter (correctness),Passed,00:00:00.1291046,243419,3
Classifier.SyntaxErrorMessage (well-formedness),Passed,00:00:00.1272416,238032,3
Dashboard.EmergencyCardMatchesCounter (well-formedness),Passed,00:00:00.1265141,146757,3
Dashboard.FiltersCommute (correctness),Passed,00:00:00.1230248,147211,3
AuthRoutes.RegisterThenLogin (correctness),Passed,00:00:00.1226035,280308,3
Validators.UpdateCaseRoundTrip (correctness),Passed,00:00:00.1201626,213111,3
TriageForm.ShortTranscriptRefused (correctness),Passed,00:00:00.1180953,103132,3
VoiceRecorder.ReadFormatTime (correctness),Passed,00:00:00.1167394,189654,3
Triage.Priority (well-formedness),Passed,00:00:00.1161037,53419,3
Classifier.EmptyReplyFails (correctness),Passed,00:00:00.1160206,266369,3
Ordering.Insert (well-formedness),Passed,00:00:00.1152971,239844,3
Validators.UpdateUrgencyField (correctness),Passed,00:00:00.1136362,200373,3
Validators.CriticalSeverityRejected (correctness),Passed,00:00:00.1115926,292598,3
CaseRoute.EmptyUpdateKeepsCase (correctness),Passed,00:00:00.1114689,74101,3
Dashboard.CardsCountTheirSelection (correctness),Passed,00:00:00.1106471,254474,3
Validators.RegisterOptionalFields (correctness),Passed,00:00:00.1099727,271541,3
Validators.RegisterRoleField (correctness),Passed,00:00:00.1077023,206027,3
CaseRoute.ApplyIdempotent (correctness),Passed,00:00:00.1063848,82940,3
Triage.LevelPriority (well-formedness),Passed,00:00:00.1048885,13773,3
Classifier.SyntaxErrorMessage (correctness),Passed,00:00:00.1045804,253960,3
Validators.RequiredEnum (well-formedness),Passed,00:00:00.1028597,75085,3
Validators.StructuredScalarFields (correctness),Passed,00:00:00.1027010,322773,3
Transcribe.TypeCheckedBeforeSize (correctness),Passed,00:00:00.1026254,153915,3
Classifier.LevelRepair (correctness),Passed,00:00:00.1018988,198553,3
Validators.CriticalSeverityRejected (well-formedness),Passed,00:00:00.1012523,117302,3
Validators.RegisterRequiredFields (well-formedness),Passed,00:00:00.1008622,106915,3
AuthRoutes.Login (well-formedness),Passed,00:00:00.0970601,199259,3
Ordering.StableSortUnique (correctness),Passed,00:00:00.0955506,300703,3
Dashboard.ApplyFilters (well-formedness),Passed,00:00:00.0950616,210570,3
Validators.StructuredScalarFields (well-formedness),Passed,00:00:00.0923210,139374,3
Classifier.UserMessage (well-formedness),Passed,00:00:00.0917986,89097,3
CasesRoute.EmergencyPrefix (well-formedness),Passed,00:00:00.0904439,75790,3
Validators.RegisterRejects (correctness),Passed,00:00:00.0903741,180753,3
Classifier.EmptyResponseMessage (correctness),Passed,00:00:00.0894248,213033,3
CasesRoute.StaffSeeEverything (correctness),Passed,00:00:00.0890734,160171,3
CaseRoute.Get (well-formedness),Passed,00:00:00.0888022,215009,3
Ordering.SortDescIdempotent (correctness),Passed,00:00:00.0880327,38877,3
CasesRoute.EmergenciesFirst (correctness),Passed,00:00:00.0862354,171240,3
Transcribe.RecorderFallbackRejected (correctness),Passed,00:00:00.0812409,178420,3
CasesRoute.PatientUserIdIgnored (correctness),Passed,00:00:00.0810799,154729,3
Transcribe.Upload (well-formedness),Passed,00:00:00.0808578,226962,3
Validators.StructuredArrayFields (correctness),Passed,00:00:00.0799174,228043,3
Dashboard.Load (well-formedness),Passed,00:00:00.0796532,153493,3
Validators.UpdateOverrideField (well-formedness),Passed,00:00:00.0791231,88399,3
Classifier.EmptyReplyFails (well-formedness),Passed,00:00:00.0787242,237299,3
CasesRoute.EmergenciesFirst (well-formedness),Passed,00:00:00.0774705,156095,3
Validators.StructuredArrayFields (well-formedness),Passed,00:00:00.0769016,127047,3
Triage.RedFlagsAsFilter (correctness),Passed,00:00:00.0760179,159092,3
Text.TrimStart (well-formedness),Passed,00:00:00.0754075,349036,3
Validators.RegisterRoundTrip (correctness),Passed,00:00:00.0742839,173270,3
VoiceRecorder.FormatTime (well-formedness),Passed,00:00:00.0730009,110824,3
CaseRoute.FindAfterUpdate (correctness),Passed,00:00:00.0713969,146388,3
Validators.StructuredDataRoundTrip (correctness),Passed,00:00:00.0711194,187569,3
Validators.FormattedString (well-formedness),Passed,00:00:00.0687011,73182,3
CasesRoute.StaffListingCharacterised (correctness),Passed,00:00:00.0686255,167707,3
CasesRoute.Fetch (well-formedness),Passed,00:00:00.0665592,99884,3
Transcribe.ProviderFailure (correctness),Passed,00:00:00.0660450,148319,3
Validators.StructuredHistoryField (correctness),Passed,00:00:00.0651418,197556,3
Ordering.BandOfSorted (correctness),Passed,00:00:00.0645402,202612,3
Validators.RegisterRejects (well-formedness),Passed,00:00:00.0643667,133151,3
Text.MessageOr (well-formedness),Passed,00:00:00.0635879,8412,3
Seqs.FilterAll (correctness),Passed,00:00:00.0630863,93842,3
Classifier.LevelRepair (well-formedness),Passed,00:00:00.0625927,188463,3
Dashboard.ShowingAtMostTotal (well-formedness),Passed,00:00:00.0618347,138381,3
Classifier.FalsyRequiredFieldFails (correctness),Passed,00:00:00.0616727,159805,3
Validators.ParseLogin (well-formedness),Passed,00:00:00.0611937,138762,3
Triage.PriorityOrder (correctness),Passed,00:00:00.0597314,104718,3
Seqs.FilterDistinct (correctness),Passed,00:00:00.0592797,82228,3
Transcribe.ProviderFailure (well-formedness),Passed,00:00:00.0591778,102880,3
Triage.SomeIncludesMentioned (correctness),Passed,00:00:00.0586536,139081,3
Transcribe.SizeLimitInclusive (well-formedness),Passed,00:00:00.0574711,105978,3
VoiceRecorder.Seconds (well-formedness),Passed,00:00:00.0572241,130409,3
Dashboard.ShowingAtMostTotal (correctness),Passed,00:00:00.0572056,147983,3
Ordering.SortDescStable (correctness),Passed,00:00:00.0570420,133183,3
Validators.StructuredSeverityField (correctness),Passed,00:00:00.0561809,202544,3
Validators.UpdateStatusField (well-formedness),Passed,00:00:00.0558671,98812,3
TriageForm.HandleTextSubmit (well-formedness),Passed,00:00:00.0557640,88905,3
Dashboard.StatsOf (well-formedness),Passed,00:00:00.0555101,120946,3
Ordering.InsertBand (correctness),Passed,00:00:00.0554888,98111,3
Validators.UpdateUrgencyField (well-formedness),Passed,00:00:00.0554269,99574,3
Text.ParseDecimal (correctness),Passed,00:00:00.0546002,114765,3
Validators.RequiredString (well-formedness),Passed,00:00:00.0542264,60413,3
CaseRoute.StaffReadAnyCase (correctness),Passed,00:00:00.0527824,123473,3
Seqs.FilterSnoc (correctness),Passed,00:00:00.0522900,127936,3
CaseRoute.StaffReadAnyCase (well-formedness),Passed,00:00:00.0520866,111790,3
Triage.PriorityInjective (correctness),Passed,00:00:00.0520307,122009,3
Validators.StringArray (well-formedness),Passed,00:00:00.0518114,101841,3
Transcribe.RecorderFallbackRejected (well-formedness),Passed,00:00:00.0512627,104182,3
Seqs.Filter (well-formedness),Passed,00:00:00.0502661,87229,3
TriageForm.Encode (well-formedness),Passed,00:00:00.0500329,73916,3
VoiceRecorder.FormatTimeInjective (correctness),Passed,00:00:00.0500179,46639,3
Validators.OptionalEnum (well-formedness),Passed,00:00:00.0495807,81351,3
Triage.KeywordsDistinct (correctness),Passed,00:00:00.0493236,91938,3
Seqs.FilterFilter (correctness),Passed,00:00:00.0491144,87740,3
Validators.StructuredSeverityField (well-formedness),Passed,00:00:00.0487331,105291,3
Dashboard.LevelCountsDisjoint (correctness),Passed,00:00:00.0474948,74833,3
Transcribe.SizeLimitInclusive (correctness),Passed,00:00:00.0474786,152670,3
CaseRoute.ResolvedAtOnlyOnResolve (correctness),Passed,00:00:00.0468741,72148,3
CasesRoute.EmergencyPrefix (correctness),Passed,00:00:00.0458834,96480,3
Transcribe.RejectionsSkipProvider (correctness),Passed,00:00:00.0454616,104943,3
Seqs.FilterIsSubsequence (correctness),Passed,00:00:00.0452091,57195,3
Ordering.SortDesc (well-formedness),Passed,00:00:00.0450299,99603,3
Seqs.FilterMembers (correctness),Passed,00:00:00.0446093,38250,3
Transcribe.TypeCheckedBeforeSize (well-formedness),Passed,00:00:00.0428601,102479,3
Validators.RegisterRoleField (well-formedness),Passed,00:00:00.0401855,88484,3
Text.ParseDecimal (well-formedness),Passed,00:00:00.0388921,21878,3
Triage.FollowUpDistinct (correctness),Passed,00:00:00.0387139,149799,3
Seqs.SubsequenceTransitive (correctness),Passed,00:00:00.0386604,34307,3
Text.PadStartZero (well-formedness),Passed,00:00:00.0382796,41740,3
Seqs.FilterExtensional (correctness),Passed,00:00:00.0379428,45773,3
Validators.StructuredHistoryField (well-formedness),Passed,00:00:00.0377610,95976,3
Validators.UpdateReasonField (well-formedness),Passed,00:00:00.0373727,88381,3
Triage.FollowUpRecommendation (well-formedness),Passed,00:00:00.0355331,123431,3
Validators.UpdateNotesField (well-formedness),Passed,00:00:00.0344785,88381,3
Validators.Strings (well-formedness),Passed,00:00:00.0340867,61086,3
Validators.RegisterOptionalFields (well-formedness),Passed,00:00:00.0338980,93237,3
Ordering.SortDescOfSorted (correctness),Passed,00:00:00.0336040,96686,3
Text.ToLower (well-formedness),Passed,00:00:00.0333778,39575,3
Text.Decimal (well-formedness),Passed,00:00:00.0332656,40895,3
Text.TrimEnd (well-formedness),Passed,00:00:00.0330583,56302,3
Seqs.Count (well-formedness),Passed,00:00:00.0328282,45277,3
Validators.OptionalString (well-formedness),Passed,00:00:00.0321941,62699,3
Triage.Mentioned (well-formedness),Passed,00:00:00.0317405,32272,3
Json.Present (well-formedness),Passed,00:00:00.0315780,29403,3
VoiceRecorder.FormatZero (well-formedness),Passed,00:00:00.0313225,37275,3
Text.TrimOfTrimmed (correctness),Passed,00:00:00.0312023,35232,3
Triage.ParseName (correctness),Passed,00:00:00.0307690,60748,3
Ordering.StableSortCharacterisation (correctness),Passed,00:00:00.0307160,65790,3
AuthRoutes.NewUser (well-formedness),Passed,00:00:00.0299328,51739,3
Triage.ParseLevel (well-formedness),Passed,00:00:00.0298516,64548,3
Text.ParseDigits (well-formedness),Passed,00:00:00.0284919,22129,3
AuthRoutes.FindAppended (correctness),Passed,00:00:00.0280396,55814,3
Validators.ParseStatus (well-formedness),Passed,00:00:00.0278159,53439,3
Triage.IsValidUrgencyLevel (well-formedness),Passed,00:00:00.0275626,58496,3
Session.Authenticate (well-formedness),Passed,00:00:00.0268905,46440,3
Classifier.ErrorPrecedence (correctness),Passed,00:00:00.0259248,85650,3
Text.TrimIdempotent (correctness),Passed,00:00:00.0250553,33952,3
Seqs.FilterAll (well-formedness),Passed,00:00:00.0246873,25525,3
Triage.PreprocessInput (well-formedness),Passed,00:00:00.0242113,47717,3
Json.OrElse (well-formedness),Passed,00:00:00.0240365,36075,3
VoiceRecorder.ReadTime (well-formedness),Passed,00:00:00.0239148,34726,3
Dashboard.ToggleTwice (correctness),Passed,00:00:00.0235675,33479,3
Ordering.Band (well-formedness),Passed,00:00:00.0227152,58154,3
Text.TrimOfTrimmed (well-formedness),Passed,00:00:00.0225861,25421,3
Validators.OptionalBool (well-formedness),Passed,00:00:00.0220579,64127,3
Triage.PreprocessIdempotent (correctness),Passed,00:00:00.0219325,27915,3
Triage.SomeIncludesMentioned (well-formedness),Passed,00:00:00.0215759,34461,3
Validators.ParseRole (well-formedness),Passed,00:00:00.0210007,38655,3
Dashboard.PassesUrgency (well-formedness),Passed,00:00:00.0200478,28570,3
Dashboard.ActiveFilters (well-formedness),Passed,00:00:00.0199574,21468,3
Triage.EmergencyAdviceCalls911 (correctness),Passed,00:00:00.0199383,48087,3
CaseRoute.FindAfterUpdate (well-formedness),Passed,00:00:00.0198285,38110,3
Validators.ParseSeverity (well-formedness),Passed,00:00:00.0197947,39424,3
TriageRoute.ErrorText (well-formedness),Passed,00:00:00.0197911,20574,3
AuthRoutes.PayloadOf (well-formedness),Passed,00:00:00.0197437,21975,3
Ordering.InBand (correctness),Passed,00:00:00.0197333,45793,3
Dashboard.ClearFilters (well-formedness),Passed,00:00:00.0195813,31155,3
Text.AllDigits (well-formedness),Passed,00:00:00.0194103,10934,3
Text.SliceWithinWhitespace (well-formedness),Passed,00:00:00.0193354,23788,3
Transcribe.TranscribeAudio (well-formedness),Passed,00:00:00.0193184,34915,3
Json.Field (well-formedness),Passed,00:00:00.0189521,30434,3
Ordering.ConsSorted (correctness),Passed,00:00:00.0187035,39478,3
Validators.StringsOfUnique (correctness),Passed,00:00:00.0186906,40243,3
Text.NoOpeningPair (correctness),Passed,00:00:00.0185033,25558,3
CasesRoute.BuildWhere (well-formedness),Passed,00:00:00.0184246,33628,3
AuthRoutes.UniqueEmails (well-formedness),Passed,00:00:00.0183531,17305,3
Ordering.BandKeysBounded (well-formedness),Passed,00:00:00.0181615,29960,3
Dashboard.ToggleLevel (well-formedness),Passed,00:00:00.0180056,27015,3
Transcribe.MaxSize (well-formedness),Passed,00:00:00.0179270,4231,3
Ordering.BandAbove (correctness),Passed,00:00:00.0178941,35353,3
Ordering.ConsMultiset (well-formedness),Passed,00:00:00.0173489,15493,3
Validators.AllStrings (well-formedness),Passed,00:00:00.0165272,21038,3
Validators.StringsOf (well-formedness),Passed,00:00:00.0164138,26371,3
Ordering.BandKeysBounded (correctness),Passed,00:00:00.0157736,34208,3
Dashboard.ToggleOpen (well-formedness),Passed,00:00:00.0156854,29259,3
TriageForm.HandleVoiceTranscript (well-formedness),Passed,00:00:00.0152772,13853,3
Session.Token (well-formedness),Passed,00:00:00.0151578,28049,3
Text.NoOpeningPair (well-formedness),Passed,00:00:00.0151198,15109,3
Ordering.BandAbove (well-formedness),Passed,00:00:00.0148286,24967,3
Transcribe.EntryType (well-formedness),Passed,00:00:00.0146834,14549,3
Transcribe.RecorderType (well-formedness),Passed,00:00:00.0146565,20431,3
Text.DigitChar (well-formedness),Passed,00:00:00.0145522,9299,3
Ordering.ConsSorted (well-formedness),Passed,00:00:00.0143683,21166,3
Seqs.Distinct (well-formedness),Passed,00:00:00.0139548,8637,3
Validators.OptionalEntry (well-formedness),Passed,00:00:00.0138601,21032,3
Text.Join (well-formedness),Passed,00:00:00.0131533,13367,3
Ordering.ConsMultiset (correctness),Passed,00:00:00.0130608,31179,3
Text.LowerChar (well-formedness),Passed,00:00:00.0130252,12842,3
Validators.ParseInputType (well-formedness),Passed,00:00:00.0121004,31528,3
Triage.SomeIncludes (well-formedness),Passed,00:00:00.0115369,17522,3
Text.OccursAt (well-formedness),Passed,00:00:00.0114942,10634,3
Ordering.InBand (well-formedness),Passed,00:00:00.0113428,24250,3
Text.DigitValue (well-formedness),Passed,00:00:00.0099464,10987,3
Ordering.SortedDesc (well-formedness),Passed,00:00:00.0098023,17708,3
Validators.IssueOf (well-formedness),Passed,00:00:00.0097535,13807,3
CasesRoute.Truthy (well-formedness),Passed,00:00:00.0092742,13172,3
Session.Unauthorized (well-formedness),Passed,00:00:00.0076169,3751,3
Transcribe.Provided (well-formedness),Passed,00:00:00.0075942,13718,3
TriageForm.MinTextLength (well-formedness),Passed,00:00:00.0070565,3751,3
Validators.MinRawInputLength (well-formedness),Passed,00:00:00.0059318,3752,3
