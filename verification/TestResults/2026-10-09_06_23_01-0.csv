TestResult.DisplayName,TestResult.Outcome,TestResult.Duration,TestResult.ResourceCount,RandomSeed
CasesRoute.List (well-formedness),Passed,00:00:00.3913383,1222762,1
TriageRoute.BlankDescriptionReachesClassifier (correctness),Passed,00:00:00.3475261,824237,1
CaseRoute.Apply (well-formedness),Passed,00:00:00.3383991,541487,1
TriageRoute.Submit (well-formedness),Passed,00:00:00.3174548,561129,1
TriageRoute.Post (well-formedness),Passed,00:00:00.3133823,685190,1
TriageRoute.SuccessfulSubmission (correctness),Passed,00:00:00.2623783,553882,1
Validators.ParseUpdateCase (well-formedness),Passed,00:00:00.2567461,528244,1
TriageRoute.SuccessfulSubmission (well-formedness),Passed,00:00:00.2517454,493641,1
TriageRoute.ClassifierFailureWritesNothing (well-formedness),Passed,00:00:00.2466313,413687,1
Validators.UpdateStatusField (correctness),Passed,00:00:00.2378054,738776,1
TriageRoute.BlankDescriptionReachesClassifier (well-formedness),Passed,00:00:00.2366094,437780,1
Validators.ParseStructuredData (well-formedness),Passed,00:00:00.2275618,405365,1
TriageForm.ServerReadsSubmission (correctness),Passed,00:00:00.2268418,180528,1
Validators.ParseRegister (well-formedness),Passed,00:00:00.2197646,461452,1
TriageRoute.ClassifierFailureWritesNothing (correctness),Passed,00:00:00.2157847,457055,1
CaseRoute.Patch (well-formedness),Passed,00:00:00.2150622,377651,1
AuthRoutes.Register (well-formedness),Passed,00:00:00.2044406,424257,1
TriageForm.AcceptedTextPassesServer (well-formedness),Passed,00:00:00.2039795,143386,1
Validators.RegisterRequiredFields (correctness),Passed,00:00:00.2020601,595223,1
Classifier.Normalise (well-formedness),Passed,00:00:00.1983385,354785,1
TriageRoute.InvalidBodyIs500 (well-formedness),Passed,00:00:00.1936879,417073,1
TriageRoute.AuditFailureLeavesCase (well-formedness),Passed,00:00:00.1856680,414894,1
Validators.UpdateNotesField (correctness),Passed,00:00:00.1841270,568279,1
TriageRoute.AuditFailureLeavesCase (correctness),Passed,00:00:00.1836101,501504,1
Validators.UpdateOverrideField (correctness),Passed,00:00:00.1749673,507584,1
Text.Trim (well-formedness),Passed,00:00:00.1722166,820745,1
AuthRoutes.RegisterThenLogin (well-formedness),Passed,00:00:00.1722051,236615,1
AuthRoutes.UnknownEmailLooksLikeWrongPassword (well-formedness),Passed,00:00:00.1713147,144850,1
Classifier.Interpret (well-formedness),Passed,00:00:00.1696319,298805,1
CaseRoute.PatchThenGet (correctness),Passed,00:00:00.1684711,306151,1
AuthRoutes.RegisterThenLogin (correctness),Passed,00:00:00.1635017,279866,1
TriageRoute.InvalidBodyIs500 (correctness),Passed,00:00:00.1572599,424623,1
Classifier.SyntaxErrorMessage (well-formedness),Passed,00:00:00.1552973,238071,1
Classifier.ProcessTriage (well-formedness),Passed,00:00:00.1537290,298106,1
Classifier.CoerceLevel (well-formedness),Passed,00:00:00.1527418,80973,1
Classifier.SyntaxErrorMessage (correctness),Passed,00:00:00.1515309,254012,1
CasesRoute.ListedIffMatching (correctness),Passed,00:00:00.1489535,183967,1
CaseRoute.Find (well-formedness),Passed,00:00:00.1488789,138915,1
Seqs.IsSubsequence (well-formedness),Passed,00:00:00.1467915,14815,1
Json.OptionalMember (well-formedness),Passed,00:00:00.1464241,42234,1
Seqs.SubsequenceReflexive (correctness),Passed,00:00:00.1463553,14324,1
CaseRoute.PatchThenGet (well-formedness),Passed,00:00:00.1402994,243335,1
AuthRoutes.UnknownEmailLooksLikeWrongPassword (correctness),Passed,00:00:00.1334759,159303,1
CasesRoute.Matches (well-formedness),Passed,00:00:00.1315558,48199,1
AuthRoutes.Public (well-formedness),Passed,00:00:00.1311900,23723,1
CasesRoute.StaffKey (well-formedness),Passed,00:00:00.1287466,61232,1
Validators.ParseInputType (well-formedness),Passed,00:00:00.1271198,31091,1
Dashboard.DisplayedIsSelection (correctness),Passed,00:00:00.1267959,147607,1
Dashboard.PassesStatus (well-formedness),Passed,00:00:00.1261508,28456,1
Triage.PriorityOrder (correctness),Passed,00:00:00.1228666,103436,1
Triage.DetectRedFlags (correctness),Passed,00:00:00.1219770,452537,1
Validators.ParseTriageInput (well-formedness),Passed,00:00:00.1212479,239300,1
Dashboard.CardsCountTheirSelection (correctness),Passed,00:00:00.1178278,268370,1
Seqs.CountIsFilterLength (correctness),Passed,00:00:00.1146269,48507,1
Validators.UpdateCaseRoundTrip (correctness),Passed,00:00:00.1080127,212601,1
Transcribe.TypeCheckedBeforeSize (correctness),Passed,00:00:00.1076400,154035,1
Dashboard.EmergencyCardMatchesCounter (correctness),Passed,00:00:00.1073250,245165,1
Classifier.EmptyReplyFails (correctness),Passed,00:00:00.1046565,273276,1
Validators.RegisterRejects (correctness),Passed,00:00:00.1042187,230064,1
CaseRoute.ApplyIdempotent (correctness),Passed,00:00:00.1038091,83061,1
Ordering.Insert (well-formedness),Passed,00:00:00.1009710,272292,1
Validators.StructuredDataRoundTrip (correctness),Passed,00:00:00.1001267,187573,1
Validators.StructuredScalarFields (well-formedness),Passed,00:00:00.0976625,139186,1
TriageForm.AcceptedTextPassesServer (correctness),Passed,00:00:00.0949007,156242,1
CasesRoute.EmptyParameterIgnored (correctness),Passed,00:00:00.0941863,258999,1
Ordering.SortDescOfSorted (correctness),Passed,00:00:00.0924458,127364,1
Dashboard.FiltersCommute (correctness),Passed,00:00:00.0923635,147836,1
Validators.RegisterRoleField (correctness),Passed,00:00:00.0906652,206477,1
Validators.UpdateReasonField (correctness),Passed,00:00:00.0906625,289666,1
Validators.CriticalSeverityRejected (well-formedness),Passed,00:00:00.0885731,117253,1
AuthRoutes.Login (well-formedness),Passed,00:00:00.0879692,199152,1
Classifier.UserMessage (well-formedness),Passed,00:00:00.0872024,89136,1
Triage.LevelPriority (well-formedness),Passed,00:00:00.0853055,13775,1
Validators.RegisterOptionalFields (correctness),Passed,00:00:00.0851832,270778,1
TriageForm.ShortTranscriptRefused (correctness),Passed,00:00:00.0851702,102205,1
Validators.ParseLogin (well-formedness),Passed,00:00:00.0847860,140586,1
Validators.CriticalSeverityRejected (correctness),Passed,00:00:00.0841011,279595,1
Ordering.StableSortUnique (correctness),Passed,00:00:00.0839431,282640,1
CaseRoute.Get (well-formedness),Passed,00:00:00.0820337,215293,1
Validators.RequiredEnum (well-formedness),Passed,00:00:00.0798860,74981,1
Triage.RedFlagsAsFilter (correctness),Passed,00:00:00.0788913,158382,1
Validators.StructuredScalarFields (correctness),Passed,00:00:00.0783722,282040,1
Ordering.SortDescIdempotent (correctness),Passed,00:00:00.0772053,39018,1
Dashboard.ApplyFilters (well-formedness),Passed,00:00:00.0764068,223702,1
CasesRoute.Get (well-formedness),Passed,00:00:00.0759103,211063,1
Validators.StructuredArrayFields (well-formedness),Passed,00:00:00.0743157,127019,1
Validators.UpdateUrgencyField (correctness),Passed,00:00:00.0740223,199657,1
Validators.RegisterRequiredFields (well-formedness),Passed,00:00:00.0724415,106651,1
Dashboard.EmergencyCardMatchesCounter (well-formedness),Passed,00:00:00.0706452,146195,1
Classifier.EmptyReplyFails (well-formedness),Passed,00:00:00.0684588,237255,1
CasesRoute.EmergencyPrefix (well-formedness),Passed,00:00:00.0680226,75902,1
Validators.StructuredArrayFields (correctness),Passed,00:00:00.0677163,227968,1
Classifier.EmptyResponseMessage (correctness),Passed,00:00:00.0669954,216012,1
CasesRoute.EmergenciesFirst (correctness),Passed,00:00:00.0665687,171330,1
Validators.FormattedString (well-formedness),Passed,00:00:00.0659448,72978,1
Triage.SomeIncludesMentioned (correctness),Passed,00:00:00.0658854,132820,1
VoiceRecorder.ReadFormatTime (correctness),Passed,00:00:00.0655889,179883,1
Validators.UpdateOverrideField (well-formedness),Passed,00:00:00.0649227,88374,1
Transcribe.Upload (well-formedness),Passed,00:00:00.0634526,227179,1
Classifier.ErrorPrecedence (correctness),Passed,00:00:00.0633491,85778,1
Validators.RegisterRoundTrip (correctness),Passed,00:00:00.0631878,174164,1
CasesRoute.StaffListingCharacterised (correctness),Passed,00:00:00.0629444,167734,1
CasesRoute.StaffSeeEverything (correctness),Passed,00:00:00.0611991,160147,1
CaseRoute.FindAfterUpdate (correctness),Passed,00:00:00.0611143,158193,1
VoiceRecorder.FormatTime (well-formedness),Passed,00:00:00.0606850,145556,1
CasesRoute.EmergenciesFirst (well-formedness),Passed,00:00:00.0602857,156316,1
Classifier.LevelRepair (well-formedness),Passed,00:00:00.0601642,188386,1
Validators.StructuredSeverityField (correctness),Passed,00:00:00.0591508,201850,1
Classifier.LevelRepair (correctness),Passed,00:00:00.0581344,198479,1
Ordering.BandOfSorted (correctness),Passed,00:00:00.0568397,199896,1
TriageForm.Encode (well-formedness),Passed,00:00:00.0545911,67953,1
CasesRoute.Fetch (well-formedness),Passed,00:00:00.0544022,99975,1
Seqs.Filter (well-formedness),Passed,00:00:00.0543114,85623,1
Dashboard.NoFiltersShowsAll (correctness),Passed,00:00:00.0542204,68304,1
VoiceRecorder.FormatZero (correctness),Passed,00:00:00.0540896,124454,1
Transcribe.RecorderFallbackRejected (correctness),Passed,00:00:00.0538589,178163,1
CasesRoute.PatientUserIdIgnored (correctness),Passed,00:00:00.0530674,154904,1
Json.OrElse (well-formedness),Passed,00:00:00.0523950,36077,1
Validators.StructuredHistoryField (correctness),Passed,00:00:00.0519483,174618,1
Dashboard.ShowingAtMostTotal (correctness),Passed,00:00:00.0509704,147994,1
Validators.RegisterRejects (well-formedness),Passed,00:00:00.0499873,133159,1
Dashboard.ShowingAtMostTotal (well-formedness),Passed,00:00:00.0499631,138378,1
Transcribe.SizeLimitInclusive (well-formedness),Passed,00:00:00.0497582,106007,1
Triage.PriorityInjective (correctness),Passed,00:00:00.0492737,107897,1
VoiceRecorder.Seconds (well-formedness),Passed,00:00:00.0479917,130559,1
Dashboard.Load (well-formedness),Passed,00:00:00.0479232,153507,1
Ordering.SortDescStable (correctness),Passed,00:00:00.0475032,151345,1
Validators.RequiredString (well-formedness),Passed,00:00:00.0465733,60474,1
Dashboard.StatsOf (well-formedness),Passed,00:00:00.0456372,120681,1
Seqs.FilterSnoc (correctness),Passed,00:00:00.0453115,126308,1
Classifier.FalsyRequiredFieldFails (correctness),Passed,00:00:00.0444750,159813,1
Transcribe.TypeCheckedBeforeSize (well-formedness),Passed,00:00:00.0444709,102482,1
Transcribe.SizeLimitInclusive (correctness),Passed,00:00:00.0444144,152102,1
CaseRoute.StaffReadAnyCase (correctness),Passed,00:00:00.0428145,122421,1
Transcribe.RecorderFallbackRejected (well-formedness),Passed,00:00:00.0424898,104155,1
Seqs.SubsequenceTransitive (correctness),Passed,00:00:00.0423822,34312,1
Validators.StructuredSeverityField (well-formedness),Passed,00:00:00.0418484,105329,1
Transcribe.ProviderFailure (correctness),Passed,00:00:00.0414565,148358,1
Validators.UpdateStatusField (well-formedness),Passed,00:00:00.0413639,98872,1
Validators.UpdateUrgencyField (well-formedness),Passed,00:00:00.0408229,99631,1
CaseRoute.StaffReadAnyCase (well-formedness),Passed,00:00:00.0407164,111795,1
Triage.FollowUpRecommendation (well-formedness),Passed,00:00:00.0403449,123457,1
Seqs.FilterAll (correctness),Passed,00:00:00.0400738,79277,1
Transcribe.ProviderFailure (well-formedness),Passed,00:00:00.0400142,102883,1
TriageForm.HandleTextSubmit (well-formedness),Passed,00:00:00.0398715,88887,1
Dashboard.LevelCountsDisjoint (correctness),Passed,00:00:00.0395399,73143,1
Validators.StringArray (well-formedness),Passed,00:00:00.0390607,104787,1
Validators.UpdateNotesField (well-formedness),Passed,00:00:00.0388874,88371,1
Triage.IsValidUrgencyLevel (well-formedness),Passed,00:00:00.0387400,58442,1
Seqs.FilterDistinct (correctness),Passed,00:00:00.0373669,77498,1
Text.TrimStart (well-formedness),Passed,00:00:00.0365123,112206,1
CasesRoute.EmergencyPrefix (correctness),Passed,00:00:00.0364239,96306,1
Validators.OptionalBool (well-formedness),Passed,00:00:00.0363074,64110,1
Triage.FollowUpDistinct (correctness),Passed,00:00:00.0361766,145064,1
Validators.UpdateReasonField (well-formedness),Passed,00:00:00.0357581,88371,1
Ordering.InsertBand (correctness),Passed,00:00:00.0357360,98173,1
Seqs.FilterFilter (correctness),Passed,00:00:00.0353466,90708,1
Seqs.FilterIsSubsequence (correctness),Passed,00:00:00.0352150,56514,1
Validators.OptionalString (well-formedness),Passed,00:00:00.0346978,62665,1
Seqs.Count (well-formedness),Passed,00:00:00.0345964,45249,1
Triage.ParseLevel (well-formedness),Passed,00:00:00.0345257,64495,1
Transcribe.RejectionsSkipProvider (correctness),Passed,00:00:00.0337858,104944,1
Validators.RegisterRoleField (well-formedness),Passed,00:00:00.0323105,88494,1
Triage.SomeIncludesMentioned (well-formedness),Passed,00:00:00.0322304,34554,1
VoiceRecorder.FormatTimeInjective (correctness),Passed,00:00:00.0321527,46640,1
Validators.RegisterOptionalFields (well-formedness),Passed,00:00:00.0318307,93236,1
Text.ToLower (well-formedness),Passed,00:00:00.0317445,39773,1
Text.ParseDecimal (correctness),Passed,00:00:00.0314026,75807,1
Ordering.Band (well-formedness),Passed,00:00:00.0312919,58450,1
Triage.Mentioned (well-formedness),Passed,00:00:00.0310030,32259,1
Ordering.SortDesc (well-formedness),Passed,00:00:00.0303275,88349,1
Validators.OptionalEnum (well-formedness),Passed,00:00:00.0302581,81096,1
Seqs.FilterExtensional (correctness),Passed,00:00:00.0301447,46719,1
Triage.KeywordsDistinct (correctness),Passed,00:00:00.0300820,80005,1
Triage.Priority (well-formedness),Passed,00:00:00.0292272,53408,1
Validators.StructuredHistoryField (well-formedness),Passed,00:00:00.0290375,95934,1
Validators.ParseStatus (well-formedness),Passed,00:00:00.0284910,52891,1
TriageRoute.NewCase (well-formedness),Passed,00:00:00.0281921,69426,1
CaseRoute.EmptyUpdateKeepsCase (correctness),Passed,00:00:00.0277283,74096,1
CaseRoute.ResolvedAtOnlyOnResolve (correctness),Passed,00:00:00.0274849,73608,1
Text.PadStartZero (well-formedness),Passed,00:00:00.0264373,41138,1
Json.Field (well-formedness),Passed,00:00:00.0263337,30440,1
Session.Authenticate (well-formedness),Passed,00:00:00.0257904,46441,1
Triage.PreprocessInput (well-formedness),Passed,00:00:00.0257279,47779,1
Triage.ParseName (correctness),Passed,00:00:00.0256442,60388,1
Text.TrimEnd (well-formedness),Passed,00:00:00.0248611,57653,1
CasesRoute.BuildWhere (well-formedness),Passed,00:00:00.0246698,33560,1
Seqs.FilterAll (well-formedness),Passed,00:00:00.0240394,25527,1
Seqs.FilterMembers (correctness),Passed,00:00:00.0238496,38246,1
Triage.PreprocessIdempotent (correctness),Passed,00:00:00.0238434,27944,1
Json.Present (well-formedness),Passed,00:00:00.0237263,29400,1
Ordering.StableSortCharacterisation (correctness),Passed,00:00:00.0237006,65808,1
Validators.ParseSeverity (well-formedness),Passed,00:00:00.0234890,39441,1
AuthRoutes.NewUser (well-formedness),Passed,00:00:00.0233679,51747,1
VoiceRecorder.FormatZero (well-formedness),Passed,00:00:00.0229589,37253,1
Validators.Strings (well-formedness),Passed,00:00:00.0224074,61038,1
Dashboard.ActiveFilters (well-formedness),Passed,00:00:00.0221987,21735,1
Text.TrimOfTrimmed (well-formedness),Passed,00:00:00.0218365,25269,1
Text.TrimIdempotent (correctness),Passed,00:00:00.0217003,33908,1
AuthRoutes.FindAppended (correctness),Passed,00:00:00.0216148,55908,1
Session.Token (well-formedness),Passed,00:00:00.0215769,28058,1
AuthRoutes.FindByEmail (well-formedness),Passed,00:00:00.0213448,46330,1
Text.SliceWithinWhitespace (well-formedness),Passed,00:00:00.0209614,23606,1
Text.Decimal (well-formedness),Passed,00:00:00.0205607,40853,1
Text.TrimOfTrimmed (correctness),Passed,00:00:00.0202413,34149,1
AuthRoutes.PayloadOf (well-formedness),Passed,00:00:00.0193168,21975,1
CaseRoute.FindAfterUpdate (well-formedness),Passed,00:00:00.0192985,38090,1
Text.ParseDecimal (well-formedness),Passed,00:00:00.0185836,21882,1
Transcribe.TranscribeAudio (well-formedness),Passed,00:00:00.0181962,35293,1
VoiceRecorder.ReadTime (well-formedness),Passed,00:00:00.0181918,35055,1
Triage.SomeIncludes (well-formedness),Passed,00:00:00.0179592,17529,1
Ordering.InBand (correctness),Passed,00:00:00.0179265,52035,1
Dashboard.PassesUrgency (well-formedness),Passed,00:00:00.0178476,28570,1
Text.ParseDigits (well-formedness),Passed,00:00:00.0170885,22205,1
Triage.EmergencyAdviceCalls911 (correctness),Passed,00:00:00.0169844,48078,1
Ordering.ConsSorted (correctness),Passed,00:00:00.0157928,39372,1
Transcribe.Provided (well-formedness),Passed,00:00:00.0156113,13717,1
Text.NoOpeningPair (correctness),Passed,00:00:00.0154361,27534,1
Seqs.Distinct (well-formedness),Passed,00:00:00.0153650,8623,1
Dashboard.ToggleLevel (well-formedness),Passed,00:00:00.0148029,28003,1
Ordering.SortedDesc (well-formedness),Passed,00:00:00.0146345,17703,1
Ordering.BandKeysBounded (correctness),Passed,00:00:00.0146225,34193,1
Validators.StringsOfUnique (correctness),Passed,00:00:00.0143382,40321,1
Validators.ParseRole (well-formedness),Passed,00:00:00.0142070,38677,1
Ordering.BandAbove (correctness),Passed,00:00:00.0141990,35347,1
Dashboard.ClearFilters (well-formedness),Passed,00:00:00.0141662,31364,1
Validators.OptionalEntry (well-formedness),Passed,00:00:00.0141577,21032,1
TriageForm.HandleVoiceTranscript (well-formedness),Passed,00:00:00.0140878,13958,1
Dashboard.ToggleOpen (well-formedness),Passed,00:00:00.0132261,29822,1
Transcribe.EntryType (well-formedness),Passed,00:00:00.0125877,14549,1
Dashboard.ToggleTwice (correctness),Passed,00:00:00.0124458,33480,1
Transcribe.RecorderType (well-formedness),Passed,00:00:00.0123539,20431,1
Ordering.ConsMultiset (correctness),Passed,00:00:00.0122580,30626,1
Text.DigitValue (well-formedness),Passed,00:00:00.0122514,10985,1
Ordering.BandKeysBounded (well-formedness),Passed,00:00:00.0121664,29991,1
Ordering.ConsSorted (well-formedness),Passed,00:00:00.0116555,21165,1
Text.OccursAt (well-formedness),Passed,00:00:00.0115485,10634,1
Ordering.InBand (well-formedness),Passed,00:00:00.0115396,24250,1
Text.Join (well-formedness),Passed,00:00:00.0111416,13375,1
Text.NoOpeningPair (well-formedness),Passed,00:00:00.0109973,15111,1
TriageRoute.ErrorText (well-formedness),Passed,00:00:00.0108718,20575,1
Ordering.BandAbove (well-formedness),Passed,00:00:00.0108207,24950,1
Validators.StringsOf (well-formedness),Passed,00:00:00.0104046,26372,1
Validators.AllStrings (well-formedness),Passed,00:00:00.0101870,21036,1
Transcribe.MaxSize (well-formedness),Passed,00:00:00.0101677,4231,1
Text.LowerChar (well-formedness),Passed,00:00:00.0096300,12824,1
AuthRoutes.UniqueEmails (well-formedness),Passed,00:00:00.0095928,17295,1
Text.DigitChar (well-formedness),Passed,00:00:00.0094716,9299,1
Text.AllDigits (well-formedness),Passed,00:00:00.0091439,10965,1
CasesRoute.Truthy (well-formedness),Passed,00:00:00.0091034,13170,1
Ordering.ConsMultiset (well-formedness),Passed,00:00:00.0088366,15476,1
Validators.IssueOf (well-formedness),Passed,00:00:00.0086231,13805,1
Session.Unauthorized (well-formedness),Passed,00:00:00.0076879,3754,1
Text.MessageOr (well-formedness),Passed,00:00:00.0074482,8412,1
Validators.MinRawInputLength (well-formedness),Passed,00:00:00.0065672,3753,1
TriageForm.MinTextLength (well-formedness),Passed,00:00:00.0061264,3753,1
