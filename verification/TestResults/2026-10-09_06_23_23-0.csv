TestResult.DisplayName,TestResult.Outcome,TestResult.Duration,TestResult.ResourceCount,RandomSeed
TriageRoute.BlankDescriptionReachesClassifier (correctness),Passed,00:00:00.4872340,1138593,2
CasesRoute.List (well-formedness),Passed,00:00:00.4120235,1193545,2
TriageRoute.Submit (well-formedness),Passed,00:00:00.3659612,565682,2
CaseRoute.Apply (well-formedness),Passed,00:00:00.3162697,521252,2
TriageRoute.Post (well-formedness),Passed,00:00:00.2891652,681795,2
TriageRoute.ClassifierFailureWritesNothing (well-formedness),Passed,00:00:00.2673947,413653,2
TriageRoute.SuccessfulSubmission (well-formedness),Passed,00:00:00.2641861,493732,2
TriageRoute.SuccessfulSubmission (correctness),Passed,00:00:00.2633124,550345,2
Triage.DetectRedFlags (correctness),Passed,00:00:00.2552508,1063239,2
Validators.UpdateNotesField (correctness),Passed,00:00:00.2507996,845860,2
TriageRoute.ClassifierFailureWritesNothing (correctness),Passed,00:00:00.2412067,457294,2
Validators.UpdateOverrideField (correctness),Passed,00:00:00.2351707,709792,2
Validators.ParseUpdateCase (well-formedness),Passed,00:00:00.2336979,526306,2
CaseRoute.Patch (well-formedness),Passed,00:00:00.2153971,379583,2
Validators.ParseRegister (well-formedness),Passed,00:00:00.2149908,462203,2
TriageRoute.AuditFailureLeavesCase (correctness),Passed,00:00:00.2148076,501195,2
Validators.ParseStructuredData (well-formedness),Passed,00:00:00.2137489,411121,2
Validators.UpdateStatusField (correctness),Passed,00:00:00.2089843,735963,2
TriageRoute.AuditFailureLeavesCase (well-formedness),Passed,00:00:00.2073664,414862,2
AuthRoutes.Register (well-formedness),Passed,00:00:00.2036057,433959,2
TriageRoute.InvalidBodyIs500 (well-formedness),Passed,00:00:00.2025023,416951,2
TriageRoute.BlankDescriptionReachesClassifier (well-formedness),Passed,00:00:00.2016060,438194,2
TriageForm.AcceptedTextPassesServer (well-formedness),Passed,00:00:00.1920223,143311,2
TriageRoute.InvalidBodyIs500 (correctness),Passed,00:00:00.1914677,424581,2
Classifier.Normalise (well-formedness),Passed,00:00:00.1888796,370323,2
CasesRoute.EmptyParameterIgnored (correctness),Passed,00:00:00.1831914,397910,2
TriageForm.ServerReadsSubmission (correctness),Passed,00:00:00.1820578,184036,2
CaseRoute.PatchThenGet (correctness),Passed,00:00:00.1686889,306425,2
Text.Trim (well-formedness),Passed,00:00:00.1685916,740537,2
AuthRoutes.UnknownEmailLooksLikeWrongPassword (well-formedness),Passed,00:00:00.1654786,144840,2
CaseRoute.Find (well-formedness),Passed,00:00:00.1626370,147271,2
CasesRoute.ListedIffMatching (correctness),Passed,00:00:00.1616530,187047,2
Validators.RegisterRequiredFields (correctness),Passed,00:00:00.1568787,529446,2
Classifier.ProcessTriage (well-formedness),Passed,00:00:00.1565694,298178,2
Classifier.Interpret (well-formedness),Passed,00:00:00.1563512,298784,2
Classifier.CoerceLevel (well-formedness),Passed,00:00:00.1529282,80778,2
AuthRoutes.FindByEmail (well-formedness),Passed,00:00:00.1455571,46439,2
Validators.UpdateReasonField (correctness),Passed,00:00:00.1451219,437324,2
CaseRoute.PatchThenGet (well-formedness),Passed,00:00:00.1420066,243308,2
AuthRoutes.RegisterThenLogin (well-formedness),Passed,00:00:00.1412610,236523,2
Seqs.CountIsFilterLength (correctness),Passed,00:00:00.1410138,52753,2
AuthRoutes.Public (well-formedness),Passed,00:00:00.1334054,23716,2
Validators.ParseInputType (well-formedness),Passed,00:00:00.1329485,31082,2
Validators.UpdateUrgencyField (correctness),Passed,00:00:00.1323295,325911,2
Dashboard.DisplayedIsSelection (correctness),Passed,00:00:00.1297736,144997,2
AuthRoutes.UnknownEmailLooksLikeWrongPassword (correctness),Passed,00:00:00.1258442,159346,2
Classifier.EmptyReplyFails (correctness),Passed,00:00:00.1251659,266399,2
Json.Field (well-formedness),Passed,00:00:00.1250355,30433,2
CasesRoute.StaffKey (well-formedness),Passed,00:00:00.1237707,61231,2
Classifier.SyntaxErrorMessage (well-formedness),Passed,00:00:00.1200159,238026,2
CasesRoute.Matches (well-formedness),Passed,00:00:00.1196486,48186,2
Validators.StructuredScalarFields (correctness),Passed,00:00:00.1180040,370138,2
Json.OptionalMember (well-formedness),Passed,00:00:00.1179419,42223,2
Ordering.StableSortUnique (correctness),Passed,00:00:00.1144390,351120,2
Dashboard.EmergencyCardMatchesCounter (correctness),Passed,00:00:00.1127702,250338,2
CaseRoute.ApplyIdempotent (correctness),Passed,00:00:00.1119564,83126,2
Validators.StructuredArrayFields (correctness),Passed,00:00:00.1098141,233316,2
Dashboard.NoFiltersShowsAll (correctness),Passed,00:00:00.1094948,68307,2
Transcribe.TypeCheckedBeforeSize (correctness),Passed,00:00:00.1079722,154072,2
Validators.RegisterRoleField (correctness),Passed,00:00:00.1066546,222418,2
Dashboard.CardsCountTheirSelection (correctness),Passed,00:00:00.1064835,276446,2
Validators.UpdateCaseRoundTrip (correctness),Passed,00:00:00.1061062,212900,2
AuthRoutes.RegisterThenLogin (correctness),Passed,00:00:00.1056215,279453,2
Validators.StructuredDataRoundTrip (correctness),Passed,00:00:00.1052823,187835,2
Validators.RegisterOptionalFields (correctness),Passed,00:00:00.1020651,274129,2
Ordering.SortDescOfSorted (correctness),Passed,00:00:00.0948635,131408,2
Validators.CriticalSeverityRejected (correctness),Passed,00:00:00.0944898,269838,2
Triage.LevelPriority (well-formedness),Passed,00:00:00.0926013,13775,2
TriageForm.AcceptedTextPassesServer (correctness),Passed,00:00:00.0924760,156132,2
Transcribe.Upload (well-formedness),Passed,00:00:00.0917318,227009,2
Classifier.UserMessage (well-formedness),Passed,00:00:00.0911285,89097,2
Validators.RegisterRejects (correctness),Passed,00:00:00.0897554,189465,2
Validators.CriticalSeverityRejected (well-formedness),Passed,00:00:00.0889044,117302,2
Ordering.Insert (well-formedness),Passed,00:00:00.0883066,253576,2
Classifier.SyntaxErrorMessage (correctness),Passed,00:00:00.0878086,255232,2
Validators.RequiredEnum (well-formedness),Passed,00:00:00.0859923,75171,2
Seqs.SubsequenceReflexive (correctness),Passed,00:00:00.0833210,14323,2
Seqs.IsSubsequence (well-formedness),Passed,00:00:00.0828790,14816,2
CaseRoute.Get (well-formedness),Passed,00:00:00.0826653,213636,2
Dashboard.FiltersCommute (correctness),Passed,00:00:00.0817036,147299,2
Dashboard.ApplyFilters (well-formedness),Passed,00:00:00.0811466,210279,2
Validators.ParseTriageInput (well-formedness),Passed,00:00:00.0797971,239057,2
Validators.StructuredArrayFields (well-formedness),Passed,00:00:00.0795841,143959,2
Triage.PriorityInjective (correctness),Passed,00:00:00.0794639,123532,2
CasesRoute.StaffListingCharacterised (correctness),Passed,00:00:00.0792768,167719,2
Validators.RegisterRequiredFields (well-formedness),Passed,00:00:00.0762743,106915,2
AuthRoutes.Login (well-formedness),Passed,00:00:00.0758400,199443,2
Classifier.EmptyReplyFails (well-formedness),Passed,00:00:00.0753173,237283,2
Dashboard.EmergencyCardMatchesCounter (well-formedness),Passed,00:00:00.0749889,146866,2
TriageForm.ShortTranscriptRefused (correctness),Passed,00:00:00.0732486,102087,2
VoiceRecorder.FormatZero (correctness),Passed,00:00:00.0732391,135780,2
CaseRoute.FindAfterUpdate (correctness),Passed,00:00:00.0724199,123791,2
Triage.SomeIncludesMentioned (correctness),Passed,00:00:00.0720501,139937,2
Classifier.LevelRepair (correctness),Passed,00:00:00.0687651,198496,2
Validators.UpdateOverrideField (well-formedness),Passed,00:00:00.0663533,88394,2
Validators.RegisterRoundTrip (correctness),Passed,00:00:00.0655890,178405,2
CasesRoute.Get (well-formedness),Passed,00:00:00.0653008,211252,2
Classifier.ErrorPrecedence (correctness),Passed,00:00:00.0650770,85714,2
Dashboard.Load (well-formedness),Passed,00:00:00.0650157,153357,2
Triage.RedFlagsAsFilter (correctness),Passed,00:00:00.0634997,158004,2
CasesRoute.EmergencyPrefix (well-formedness),Passed,00:00:00.0626678,75889,2
CasesRoute.EmergenciesFirst (well-formedness),Passed,00:00:00.0623623,156281,2
Validators.StructuredHistoryField (correctness),Passed,00:00:00.0618573,196641,2
Validators.FormattedString (well-formedness),Passed,00:00:00.0610233,73012,2
Classifier.LevelRepair (well-formedness),Passed,00:00:00.0605126,188431,2
VoiceRecorder.FormatTime (well-formedness),Passed,00:00:00.0601012,146369,2
CasesRoute.PatientUserIdIgnored (correctness),Passed,00:00:00.0594515,154927,2
CaseRoute.StaffReadAnyCase (correctness),Passed,00:00:00.0578890,123039,2
Validators.StructuredSeverityField (correctness),Passed,00:00:00.0577333,199238,2
Classifier.FalsyRequiredFieldFails (correctness),Passed,00:00:00.0576393,159788,2
CasesRoute.EmergenciesFirst (correctness),Passed,00:00:00.0576334,171475,2
Validators.RegisterRejects (well-formedness),Passed,00:00:00.0575677,133145,2
Classifier.EmptyResponseMessage (correctness),Passed,00:00:00.0573027,215779,2
VoiceRecorder.Seconds (well-formedness),Passed,00:00:00.0572034,131288,2
CasesRoute.StaffSeeEverything (correctness),Passed,00:00:00.0561818,160310,2
Text.TrimStart (well-formedness),Passed,00:00:00.0528563,207593,2
Dashboard.ShowingAtMostTotal (correctness),Passed,00:00:00.0524911,147979,2
Seqs.FilterSnoc (correctness),Passed,00:00:00.0521402,124652,2
Dashboard.ShowingAtMostTotal (well-formedness),Passed,00:00:00.0519159,138388,2
Validators.ParseLogin (well-formedness),Passed,00:00:00.0491465,139987,2
VoiceRecorder.ReadFormatTime (correctness),Passed,00:00:00.0478644,84958,2
CasesRoute.Fetch (well-formedness),Passed,00:00:00.0478551,99991,2
Ordering.BandOfSorted (correctness),Passed,00:00:00.0471874,166207,2
Triage.PriorityOrder (correctness),Passed,00:00:00.0466149,104041,2
CaseRoute.StaffReadAnyCase (well-formedness),Passed,00:00:00.0459195,112277,2
Dashboard.StatsOf (well-formedness),Passed,00:00:00.0456682,122350,2
Validators.UpdateUrgencyField (well-formedness),Passed,00:00:00.0455207,99578,2
Validators.RequiredString (well-formedness),Passed,00:00:00.0452057,60493,2
CasesRoute.EmergencyPrefix (correctness),Passed,00:00:00.0442699,96880,2
Ordering.SortDescStable (correctness),Passed,00:00:00.0441772,150932,2
Transcribe.RecorderFallbackRejected (correctness),Passed,00:00:00.0439792,176130,2
Ordering.SortDesc (well-formedness),Passed,00:00:00.0432846,87325,2
Validators.StructuredSeverityField (well-formedness),Passed,00:00:00.0432337,105313,2
Seqs.FilterAll (correctness),Passed,00:00:00.0427096,95839,2
Transcribe.SizeLimitInclusive (well-formedness),Passed,00:00:00.0421249,106119,2
Ordering.InsertBand (correctness),Passed,00:00:00.0417055,98055,2
Validators.StructuredHistoryField (well-formedness),Passed,00:00:00.0416581,95943,2
Triage.FollowUpDistinct (correctness),Passed,00:00:00.0410750,144188,2
VoiceRecorder.FormatZero (well-formedness),Passed,00:00:00.0408905,37323,2
Validators.StructuredScalarFields (well-formedness),Passed,00:00:00.0407082,138768,2
Triage.SomeIncludesMentioned (well-formedness),Passed,00:00:00.0406466,34561,2
Transcribe.ProviderFailure (correctness),Passed,00:00:00.0398875,148931,2
Transcribe.TypeCheckedBeforeSize (well-formedness),Passed,00:00:00.0394249,102571,2
Transcribe.RecorderFallbackRejected (well-formedness),Passed,00:00:00.0390568,104123,2
Seqs.Count (well-formedness),Passed,00:00:00.0390257,44924,2
Triage.FollowUpRecommendation (well-formedness),Passed,00:00:00.0382998,123467,2
Seqs.FilterFilter (correctness),Passed,00:00:00.0382197,90675,2
Seqs.FilterExtensional (correctness),Passed,00:00:00.0379418,46730,2
Validators.StringArray (well-formedness),Passed,00:00:00.0372475,106257,2
Transcribe.SizeLimitInclusive (correctness),Passed,00:00:00.0372060,109343,2
TriageForm.HandleTextSubmit (well-formedness),Passed,00:00:00.0371146,88879,2
Dashboard.LevelCountsDisjoint (correctness),Passed,00:00:00.0365704,73169,2
Seqs.FilterDistinct (correctness),Passed,00:00:00.0360049,83075,2
Validators.OptionalString (well-formedness),Passed,00:00:00.0359093,62743,2
Validators.UpdateStatusField (well-formedness),Passed,00:00:00.0355407,98811,2
Triage.ParseLevel (well-formedness),Passed,00:00:00.0354165,64551,2
Transcribe.RejectionsSkipProvider (correctness),Passed,00:00:00.0352547,105080,2
Transcribe.ProviderFailure (well-formedness),Passed,00:00:00.0350448,102972,2
Text.ToLower (well-formedness),Passed,00:00:00.0347344,39733,2
TriageForm.Encode (well-formedness),Passed,00:00:00.0344938,67897,2
Text.ParseDecimal (correctness),Passed,00:00:00.0339345,115104,2
Triage.PreprocessInput (well-formedness),Passed,00:00:00.0339153,47863,2
Seqs.Filter (well-formedness),Passed,00:00:00.0334430,61782,2
Json.Present (well-formedness),Passed,00:00:00.0333246,29405,2
CaseRoute.ResolvedAtOnlyOnResolve (correctness),Passed,00:00:00.0331094,72123,2
Json.OrElse (well-formedness),Passed,00:00:00.0328898,36073,2
VoiceRecorder.FormatTimeInjective (correctness),Passed,00:00:00.0327686,46653,2
Seqs.FilterIsSubsequence (correctness),Passed,00:00:00.0324418,56542,2
Validators.OptionalBool (well-formedness),Passed,00:00:00.0321136,64129,2
Triage.Mentioned (well-formedness),Passed,00:00:00.0315960,32286,2
Ordering.StableSortCharacterisation (correctness),Passed,00:00:00.0315308,65972,2
Validators.RegisterRoleField (well-formedness),Passed,00:00:00.0313847,88478,2
Validators.UpdateNotesField (well-formedness),Passed,00:00:00.0311484,88356,2
Triage.IsValidUrgencyLevel (well-formedness),Passed,00:00:00.0310567,58373,2
CasesRoute.Truthy (well-formedness),Passed,00:00:00.0304438,13171,2
Validators.RegisterOptionalFields (well-formedness),Passed,00:00:00.0301294,93240,2
Text.TrimIdempotent (correctness),Passed,00:00:00.0288461,33967,2
Validators.OptionalEnum (well-formedness),Passed,00:00:00.0285934,81278,2
Triage.KeywordsDistinct (correctness),Passed,00:00:00.0285300,78043,2
CaseRoute.EmptyUpdateKeepsCase (correctness),Passed,00:00:00.0284229,74083,2
Seqs.SubsequenceTransitive (correctness),Passed,00:00:00.0280391,34307,2
Session.Authenticate (well-formedness),Passed,00:00:00.0280334,46444,2
TriageRoute.NewCase (well-formedness),Passed,00:00:00.0279986,68789,2
Validators.UpdateReasonField (well-formedness),Passed,00:00:00.0277886,88356,2
Session.Token (well-formedness),Passed,00:00:00.0269898,28051,2
Triage.PreprocessIdempotent (correctness),Passed,00:00:00.0267902,27930,2
Seqs.FilterMembers (correctness),Passed,00:00:00.0267675,39533,2
Triage.Priority (well-formedness),Passed,00:00:00.0256161,53410,2
Text.TrimEnd (well-formedness),Passed,00:00:00.0252574,64222,2
Seqs.FilterAll (well-formedness),Passed,00:00:00.0251569,25527,2
Text.Decimal (well-formedness),Passed,00:00:00.0250255,42707,2
Text.PadStartZero (well-formedness),Passed,00:00:00.0248304,41114,2
Ordering.BandKeysBounded (well-formedness),Passed,00:00:00.0247443,29946,2
VoiceRecorder.ReadTime (well-formedness),Passed,00:00:00.0247370,34212,2
Triage.ParseName (correctness),Passed,00:00:00.0245493,60673,2
Ordering.InBand (correctness),Passed,00:00:00.0232970,45711,2
AuthRoutes.NewUser (well-formedness),Passed,00:00:00.0231456,51728,2
Transcribe.RecorderType (well-formedness),Passed,00:00:00.0229927,20437,2
CaseRoute.FindAfterUpdate (well-formedness),Passed,00:00:00.0219706,38097,2
Validators.Strings (well-formedness),Passed,00:00:00.0217866,61027,2
Text.ParseDecimal (well-formedness),Passed,00:00:00.0208644,21859,2
AuthRoutes.FindAppended (correctness),Passed,00:00:00.0208503,55829,2
Dashboard.ToggleLevel (well-formedness),Passed,00:00:00.0205879,27803,2
Triage.SomeIncludes (well-formedness),Passed,00:00:00.0204969,17515,2
CasesRoute.BuildWhere (well-formedness),Passed,00:00:00.0203719,33417,2
Validators.ParseStatus (well-formedness),Passed,00:00:00.0202532,53854,2
Ordering.ConsSorted (correctness),Passed,00:00:00.0200914,41797,2
Triage.EmergencyAdviceCalls911 (correctness),Passed,00:00:00.0200689,48081,2
Seqs.Distinct (well-formedness),Passed,00:00:00.0196028,8637,2
TriageRoute.ErrorText (well-formedness),Passed,00:00:00.0195567,20577,2
Text.TrimOfTrimmed (correctness),Passed,00:00:00.0194807,33597,2
Validators.ParseSeverity (well-formedness),Passed,00:00:00.0193016,39457,2
Ordering.Band (well-formedness),Passed,00:00:00.0189305,58145,2
Validators.ParseRole (well-formedness),Passed,00:00:00.0186849,38683,2
Transcribe.TranscribeAudio (well-formedness),Passed,00:00:00.0182567,34916,2
Dashboard.PassesStatus (well-formedness),Passed,00:00:00.0179396,28459,2
Text.TrimOfTrimmed (well-formedness),Passed,00:00:00.0177127,25194,2
Ordering.BandAbove (correctness),Passed,00:00:00.0174600,35343,2
Ordering.InBand (well-formedness),Passed,00:00:00.0173885,24251,2
Dashboard.PassesUrgency (well-formedness),Passed,00:00:00.0169992,28571,2
Text.SliceWithinWhitespace (well-formedness),Passed,00:00:00.0167951,23667,2
Ordering.BandKeysBounded (correctness),Passed,00:00:00.0166713,34203,2
Ordering.SortDescIdempotent (correctness),Passed,00:00:00.0165008,39004,2
Text.NoOpeningPair (correctness),Passed,00:00:00.0158397,27503,2
Text.ParseDigits (well-formedness),Passed,00:00:00.0157661,22355,2
AuthRoutes.PayloadOf (well-formedness),Passed,00:00:00.0155571,21973,2
AuthRoutes.UniqueEmails (well-formedness),Passed,00:00:00.0154214,17295,2
Ordering.ConsSorted (well-formedness),Passed,00:00:00.0153434,21164,2
Transcribe.Provided (well-formedness),Passed,00:00:00.0153216,13720,2
Transcribe.MaxSize (well-formedness),Passed,00:00:00.0146423,4231,2
Validators.OptionalEntry (well-formedness),Passed,00:00:00.0145751,21034,2
Text.Join (well-formedness),Passed,00:00:00.0144539,13367,2
Validators.StringsOfUnique (correctness),Passed,00:00:00.0143398,40280,2
Ordering.BandAbove (well-formedness),Passed,00:00:00.0142819,24950,2
Dashboard.ToggleOpen (well-formedness),Passed,00:00:00.0141055,30139,2
Session.Unauthorized (well-formedness),Passed,00:00:00.0134222,3754,2
Dashboard.ClearFilters (well-formedness),Passed,00:00:00.0129366,31383,2
Dashboard.ToggleTwice (correctness),Passed,00:00:00.0126533,33491,2
Ordering.ConsMultiset (well-formedness),Passed,00:00:00.0125124,15478,2
Ordering.ConsMultiset (correctness),Passed,00:00:00.0123983,33490,2
Transcribe.EntryType (well-formedness),Passed,00:00:00.0121513,14550,2
Text.DigitValue (well-formedness),Passed,00:00:00.0119131,10997,2
Text.NoOpeningPair (well-formedness),Passed,00:00:00.0119108,15109,2
Text.AllDigits (well-formedness),Passed,00:00:00.0116637,10952,2
Validators.StringsOf (well-formedness),Passed,00:00:00.0114534,26373,2
Text.OccursAt (well-formedness),Passed,00:00:00.0111677,10651,2
TriageForm.HandleVoiceTranscript (well-formedness),Passed,00:00:00.0110297,13853,2
Ordering.SortedDesc (well-formedness),Passed,00:00:00.0108635,17705,2
Text.LowerChar (well-formedness),Passed,00:00:00.0105824,12843,2
Validators.AllStrings (well-formedness),Passed,00:00:00.0105823,21039,2
Dashboard.ActiveFilters (well-formedness),Passed,00:00:00.0105413,21470,2
Validators.IssueOf (well-formedness),Passed,00:00:00.0093013,13807,2
Text.MessageOr (well-formedness),Passed,00:00:00.0076374,8412,2
Text.DigitChar (well-formedness),Passed,00:00:00.0075223,9301,2
TriageForm.MinTextLength (well-formedness),Passed,00:00:00.0060290,3753,2
Validators.MinRawInputLength (well-formedness),Passed,00:00:00.0053709,3753,2
