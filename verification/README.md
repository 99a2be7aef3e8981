# Regulatory Compliance Engine — a Dafny model of its core

The Regulatory Compliance Engine checks online casino games against regulatory
rules. A FastAPI backend receives a game URL and a test type. It hands the
request to one test service through a factory that maps test-type names to
services. Each service either answers with a fixed flow of UI class ids and
canned check results, or returns a JavaScript orchestration script picked by
the selected sub-test. The detection service picks, for each requested class
id, the most confident object-detector box as a click target. Two OCR helpers
look for a text in a screenshot and return the centre of its box.

The React/Electron client posts these requests and classifies HTTP failures.
It walks a stepwise flow: screenshot, submit the step, record the step result,
click. A progress panel maps the flow's positions onto the recorded history.
The home pages normalise the game URL and manage the chosen sub-tests.

The model has one Dafny module per core file:

- Pure computations are functions with contracts.
- The loops of the source are methods proved against those functions: the
  click-target search, YOLO post-processing, the parameter merge, the panel's
  index computations, the retry search and the stepwise run loop.
- The client hooks and the home page's selection state are classes whose
  methods update their fields.

Foreign code enters as data in `Environment.Env` or as function parameters:
SHA-256, Python's salted `hash`, base64 and image decoding, the YOLO model's
output, EasyOCR's results and the clock. The client's HTTP replies,
screenshots (one per turn of a run) and clicks enter as parameters of the client methods. Shared
helpers are `Wrappers` (Option/Result), `Text` (Python/JS string operations;
each language trims its own whitespace set, case folding covers ASCII), `Values` (Python dynamic values, truthiness, `or`, `dict.get`, `[0]`),
`TestIds` and `BaseService`.

The client posts each step to `/run-test-step`, but no backend file defines
that endpoint, and `/run-test` answers without a `next_step`. The model
therefore treats the step replies as input and invents no server-side cursor.
`Stepwise.BackendRunStopsBeforeFirstStep` shows what a run against the backend
as written does: it stops before the first step.

## Model

| member | source | states |
|---|---|---|
| DetectService.BestIndex | backend/services/detect_service.py:206-215 | the chosen detection has the requested class and a confidence above 0.0 and strictly above every earlier match and no lower than any later one, so the earliest of equal maxima wins; None iff no match beats 0.0 |
| DetectService.BestIndexUnique | backend/services/detect_service.py:208-215 | the best-index property determines the index: any index satisfying it is the one the scan returns |
| DetectService.TargetFor | backend/services/detect_service.py:217-242 | a found target copies class id, centre as click point, box, confidence and size; otherwise a placeholder with no click point or box, confidence 0.0, size 0 and status "not_detected", whose class name is `classes[id]` or "class_<id>"; a negative id below `-len(classes)` raises |
| DetectService.ClickTargets | backend/services/detect_service.py:202-244 | exactly one target per requested id, in request order, each the TargetFor of that id; an IndexError when any id's placeholder cannot index the class list |
| DetectService.GetClickTargets | backend/services/detect_service.py:202-244 | the nested loops compute ClickTargets |
| DetectService.ClassIdsOf | backend/services/detect_service.py:87-89 | a falsy or missing `class_ids` raises "No class IDs provided for detection"; otherwise a non-empty integer list equal to the parameter |
| DetectService.DetectError | backend/services/detect_service.py:111-119 | the error response: status "error", test id "detect_error", time 0.0, message "Detection failed: <err>", results `{"error": err}` |
| DetectService.Execute | backend/services/detect_service.py:81-119 | status is success or error, and error iff the test id is "detect_error"; the first failing stage gives the error response with its text (the class-id message, "Invalid image data: " plus the decoder's error, or the IndexError); success iff all three stages succeed, and then the Detected response for the requested ids and their ClickTargets, with `matched_targets` equal to the number of requested ids |
| DetectService.Detected | backend/services/detect_service.py:98-108 | status success, id "detect_<n>" with n below 10000, the "Detection completed" message with both counts, `click_targets` one dictionary per target in order, `total_detections` the inference count, `requested_classes` the parameter as given |
| DetectService.ExecuteTest | backend/services/detect_service.py:81-119 | the service's loops produce exactly Execute's response |
| DetectService.ValidateRequestAsWritten | backend/services/detect_service.py:63-79 | rejects every request, since a TestExecutionRequest has no `class_ids` attribute |
| DetectService.ValidateRequest | backend/services/detect_service.py:63-79 | accepts iff the image data is non-empty, `class_ids` is truthy and the image data decodes as base64 |
| DetectService.AsWrittenRejectsWellFormedRequest | backend/services/detect_service.py:69-71 | a request with image data and `class_ids` [1] is accepted by the corrected check and rejected by the written one |
| Yolo.ClassName | backend/services/detect_service.py:194 | `classes[id]` for an id below the length, "class_<id>" at or above it; ids from `-len` to -1 give `classes[len + id]` (indexing from the end), and below `-len` raise |
| Yolo.FallbackClassName | backend/services/detect_service.py:30-45 | with the fallback list "class_0".."class_16", every id's name is "class_<id>" whichever branch applies |
| Yolo.DetectionGeometry | backend/services/detect_service.py:173-196 | centre = mean of the corners, size = corner difference; for ordered corners the centre lies in the box and the size is non-negative |
| Yolo.AllBoxesAppend | backend/services/detect_service.py:168-171 | the boxes of concatenated results are the concatenated boxes |
| Yolo.SkipsMissingBoxes | backend/services/detect_service.py:169-170 | a result whose boxes are None contributes nothing, wherever it stands |
| Yolo.ProcessYoloDetections | backend/services/detect_service.py:164-200 | one detection per box of the non-None results, in input order, each computed from its box |
| Yolo.RunYoloInference | backend/services/multiple_spin_service.py:187-208 | no model (or an exception during inference) gives the empty list; otherwise the processed detections of the model's results |
| Yolo.StripDataUrlPrefix | backend/services/detect_service.py:125-126 | with a comma, the text between the first and second comma (`split(',')[1]`); without one, the input; never contains a comma |
| Yolo.DecodeImage | backend/services/detect_service.py:121-139 | succeeds iff data is present and its prefix-stripped part opens as an image; the failure is the ValueError "Invalid image data: " followed by the caught exception's text |
| StepValidation.Coordinate | backend/services/regression_service.py:194-195 | `get(click) or get(mid)`: the click coordinate when truthy, else the centre coordinate or None |
| StepValidation.Confidence | backend/services/regression_service.py:193 | a missing confidence reads as 0.0; a bool, int or float confidence succeeds with its numeric value; any other makes `>=` raise with the TypeError text naming its type |
| StepValidation.ValidateStep | backend/services/regression_service.py:186-198 | false for a missing or empty detection; true iff confidence ≥ threshold and both resolved coordinates are present; a raise iff the confidence cannot be compared |
| StepValidation.ZeroClickFallsBack | backend/services/regression_service.py:194 | a click x of 0 with no centre x fails however confident the detection is |
| StepValidation.ClickPointWins | backend/services/regression_service.py:194 | a truthy click coordinate is used as is |
| StepValidation.MonotoneInThreshold | backend/services/regression_service.py:196 | a step that passes at a threshold passes at every lower one |
| TestIds.Slug | backend/services/regression_service.py:19 | same length as the type, no spaces, each character lower-cased or a space turned into '_' |
| TestIds.MakeStableTestId | backend/services/regression_service.py:16-19 | slug, '_', then the first 12 hex digits of SHA-256 of "type\|url\|timestamp"; length is the type's length + 13 |
| TestIds.StableIdPrefixes | backend/services/net_position_services.py:316-319 | the slugs of "Regression", "Net Position", "Session Reminder" and "Max Bet Limit Testing" |
| TestIds.HashSuffixId | backend/services/banking_service.py:31 | "<prefix><n>" with n = hash mod 10000 written in decimal with no leading zero, 1–4 digits |
| BaseService.NewRequest | backend/services/base_service.py:5-10 | `additional_params` defaults to {} and `image_data` to None |
| BaseService.NewResponse | backend/services/base_service.py:12-18 | `execution_time` defaults to 0.0 and `results` to {} |
| BaseService.ErrorResponse | backend/services/banking_service.py:53-63 | the shared except branch: status "error", "<what> failed: <err>", id "<prefix><n>" with n below 10000, results `{"error": err}` |
| BaseService.FirstSelectedCase | backend/services/session_reminder_service.py:41 | `additional_params["selectedTestCases"][0]`: a missing key raises KeyError, an empty list IndexError |
| RegressionService.ValidateRequest | backend/services/regression_service.py:30-32 | true iff the game URL is non-empty |
| RegressionService.Execute | backend/services/regression_service.py:34-180 | always success, with a stable id prefixed "regression_" of length 23, the script, `test_flow` [0,1,1,15,7,10,11] and exactly those three keys |
| NetPositionService.ValidateRequest | backend/services/net_position_services.py:328-330 | every request is accepted |
| NetPositionService.ScriptFor | backend/services/net_position_services.py:343-570 | "sr_001".."sr_003" select their own script; any other value selects the "not implemented" script |
| NetPositionService.Execute | backend/services/net_position_services.py:332-597 | success iff the first selected case can be read; success has a stable "net_position_" id and exactly the keys "script" and "flow_description"; success carries the message "Net Position test prepared for URL: …", the elapsed time and the fixed flow description; an unreadable first case gives exactly the error response: status "error", message "Net Position test failed: <e>", id "net_position_error_<n>", results {"error": e} |
| NetPositionService.UnknownCaseSucceeds | backend/services/net_position_services.py:569-585 | a selection starting with an unknown case still succeeds with the fallback script |
| NetPositionService.EmptySelectionFails | backend/services/net_position_services.py:340 | an empty selection is the error path with "list index out of range" |
| SessionReminderService.ValidateRequest | backend/services/session_reminder_service.py:25-28 | every request is accepted |
| SessionReminderService.ScriptFor | backend/services/session_reminder_service.py:43-314 | exactly "sr_001".."sr_004" have a script |
| SessionReminderService.SelectedScript | backend/services/session_reminder_service.py:41-321 | the script of the first selected case, or the KeyError/IndexError text, or the unbound-variable error for any other case |
| SessionReminderService.Execute | backend/services/session_reminder_service.py:30-342 | success iff the first selected case is one of sr_001..sr_004; success carries the three True flags, the script, the message "Regression test prepared…" a stable "session_reminder_" id, the fixed flow description and the elapsed time; a failed script selection gives exactly the error response: status "error", message "Session Reminder test failed: <e>", id "session_reminder_error_<n>", results {"error": e} |
| SessionReminderService.UnknownCaseFails | backend/services/session_reminder_service.py:316-342 | "sr_005" ends in status "error" with the unbound-variable message |
| MaxBetLimitService.ValidateRequest | backend/services/max_bet_limit_service.py:22-25 | every request is accepted |
| MaxBetLimitService.SubTestId | backend/services/max_bet_limit_service.py:34-35 | a falsy or missing selection gives None; otherwise its first element (which may raise) |
| MaxBetLimitService.ScriptFor | backend/services/max_bet_limit_service.py:39-119 | the real script iff the id is "mbl_001"; otherwise the "not implemented" script |
| MaxBetLimitService.Execute | backend/services/max_bet_limit_service.py:27-143 | a missing or empty selection succeeds with the fallback script; success has a stable "max_bet_limit_testing_" id of length 34 and the single key "script"; success carries the message "Max bet test prepared for URL: …" and the elapsed time; a selection that cannot be indexed gives exactly the error response: status "error", message "Help File test failed: <e>", id "max_bet_error_<n>", results {"error": e} |
| MaxBetLimitService.Prepared | backend/services/max_bet_limit_service.py:121-132 | the success response: message "Max bet test prepared for URL: …", the stable id of length 34, the elapsed time and exactly the key "script" |
| MaxBetLimitService.OnlyFirstCaseImplemented | backend/services/max_bet_limit_service.py:118-119 | "mbl_002" succeeds with the fallback script |
| MaxBetLimitService.UnindexableSelectionFails | backend/services/max_bet_limit_service.py:35 | a truthy selection that cannot be indexed by 0 is the error path |
| MultipleSpinService.ValidateRequest | backend/services/multiple_spin_service.py:47-58 | true without image data; with image data, true iff it decodes as base64 |
| MultipleSpinService.Execute | backend/services/multiple_spin_service.py:60-124 | always success with `test_flow` [9,7,1,1,1,1,1] and id "multiple_spin_<n>"; `image_processed` false means `detection_count` 0; otherwise the count equals the detections returned |
| MultipleSpinService.ExecuteTest | backend/services/multiple_spin_service.py:60-124 | the service's loops produce exactly Execute's response |
| BankingService.ValidateRequest | backend/services/banking_service.py:15-18 | every request is accepted |
| BankingService.Execute | backend/services/banking_service.py:20-63 | always success with id "banking_<n>", `test_flow` [9,7,6] and every other flag True |
| PlaycheckService.ValidateRequest | backend/services/playcheck_service.py:15-18 | every request is accepted |
| PlaycheckService.Execute | backend/services/playcheck_service.py:20-62 | always success with id "playcheck_<n>", `test_flow` [9,10,1] and every other flag True |
| PracticePlayService.ValidateRequest | backend/services/practice_play_service.py:15-18 | every request is accepted |
| PracticePlayService.Execute | backend/services/practice_play_service.py:20-63 | always success with id "practice_play_<n>", `test_flow` [9,2,13,1] and every other flag True |
| HelpDetectionService.Execute | backend/services/help_detection_service.py:13-49 | success iff `help_detection_script` is a non-empty list; success has id "help_detection" and `actions_executed` []; otherwise id "help_detection_error"; time 0.0 on both paths |
| ServiceRegistry.NewService | backend/services/base_service.py:23-24 | `get_test_type` returns the type the constructor was given |
| ServiceRegistry.DefaultServices | backend/services/test_service_factory.py:25-35 | the nine registered services |
| ServiceRegistry.DefaultKinds | backend/services/test_service_factory.py:25-35 | the nine service classes, in registration order |
| ServiceRegistry.InstantiateAsWritten | backend/services/base_service.py:26-34 | instantiation succeeds iff every class is concrete; otherwise it fails, naming a class that is not |
| ServiceRegistry.AsWrittenFactoryRaises | backend/services/help_detection_service.py:6-49 | as written, building the default list fails at the help-detection class |
| ServiceRegistry.RunService | backend/services/test_service_factory.py:64 | dispatching to a service's loops gives that service's response |
| ServiceRegistry.KeyOrder | backend/services/test_service_factory.py:37-38 | the dictionary's keys, without duplicates, exactly the registered types |
| ServiceRegistry.RegistrationLastWins | backend/services/test_service_factory.py:37-38 | a service not overridden later is stored under its own type |
| ServiceRegistry.RegisteredTypes | backend/services/test_service_factory.py:37-38 | a type is a key iff some registered service has it |
| ServiceRegistry.KeyOrderExtends | backend/services/test_service_factory.py:45-47 | later registrations never reorder the keys already present |
| ServiceRegistry.DefaultTypes | backend/services/test_service_factory.py:25-35 | the nine default types, in order |
| ServiceRegistry.DefaultTypesDistinct | backend/services/test_service_factory.py:25-35 | the nine types are pairwise different |
| ServiceRegistry.DefaultRegistry | backend/services/test_service_factory.py:23-39 | keys are the nine types in registration order, each mapped to its own service |
| ServiceRegistry.NetPositionUnregistered | backend/services/test_service_factory.py:25-35 | "Net Position" is not a registered type |
| ServiceRegistry.KeyOrderPrefix | backend/services/test_service_factory.py:37-38 | with distinct types, the key order is the registration order |
| ServiceRegistry.TestServiceFactory.constructor | backend/services/test_service_factory.py:19-39 | the dictionary and its key order after registering the list |
| ServiceRegistry.TestServiceFactory.GetService | backend/services/test_service_factory.py:41-43 | the stored service iff the type is a key; None otherwise |
| ServiceRegistry.TestServiceFactory.IsValidTestType | backend/services/test_service_factory.py:49-51 | true iff GetService finds a service |
| ServiceRegistry.TestServiceFactory.GetAvailableTestTypes | backend/services/test_service_factory.py:45-47 | exactly the keys in registration order: no duplicates, and a type is listed iff it is valid |
| ServiceRegistry.TestServiceFactory.ExecuteTest | backend/services/test_service_factory.py:53-64 | an unknown type or a rejected request gives the ValueError text and runs no service; otherwise the service's response unchanged |
| App.ExceptionToHttp | backend/app.py:121-128 | HTTPException passes through, ValueError becomes 400 with its text, anything else 500 "Internal server error" |
| App.StrList | backend/app.py:94 | a list of strings becomes a Python list of the same length whose i-th item is the i-th string |
| App.MergeParams | backend/app.py:88-97 | a copy of `additional_params`; each of the three selections overwrites its key only when given; `class_ids` becomes [class_id] only when absent and class_id is given; no other key changes |
| App.ImageDataOf | backend/app.py:100-107 | a non-empty top-level `imageData` wins; otherwise the merged `imageData`, coerced as pydantic 1.x does (None kept, bool/int/float by `str`), and any other value fails validation with pydantic 1.x's message |
| App.Respond | backend/app.py:114-119 | the response copies status, message, test id and results |
| App.RunTest | backend/app.py:74-128 | an unknown type is 400 listing the available types, before any merge; every other error is 400; otherwise the service's response for the merged request, or 400 when the service rejects it |
| App.GetTestTypes | backend/app.py:63-69 | the registered types and a count equal to their number |
| App.GetTestResults | backend/app.py:129-138 | echoes the test id with status "completed" |
| HelperFunctions.SanitizeGameName | backend/services/helper_functions.py:525-527 | same length; no ' ', '/' or '\\' left; every other character unchanged |
| HelperFunctions.SanitizeIdempotent | backend/services/helper_functions.py:525-527 | sanitising twice is sanitising once |
| HelperFunctions.SplitLastIsAfterLast | backend/services/helper_functions.py:568 | the last field of a split is exactly the text after the last separator (the whole string when there is none) |
| HelperFunctions.AfterLastIsSuffix | backend/services/helper_functions.py:568 | the text after the last separator is a suffix of the input, preceded by the separator when shorter than the input |
| HelperFunctions.LastFieldFacts | backend/services/helper_functions.py:568 | the last field after the separators are unified is a separator-free suffix, preceded by a separator when shorter than the input |
| HelperFunctions.NoSeparatorIsWhole | backend/services/helper_functions.py:568 | without separators the whole input is returned |
| HelperFunctions.ExtractFileName | backend/services/helper_functions.py:566-568 | the suffix after the last '/' or '\\': separator-free, preceded by a separator when shorter, the input itself when it has none |
| HelperFunctions.TrailingSeparatorGivesEmpty | backend/services/helper_functions.py:566-568 | a name ending in a separator gives "" |
| HelperFunctions.SearchPlayFiles | backend/services/helper_functions.py:571-573 | true iff some prefix of the name lower-cases to "play", "spins" or "refresh" |
| OcrHelper.Trunc | ocr_helper.py:25-26 | `int()` truncates toward zero |
| OcrHelper.FirstMatchFrom | ocr_helper.py:21-22 | the first normalised text from the start index that contains the query; None iff there is none |
| OcrHelper.FirstMatch | ocr_helper.py:19-22 | the first result, in reader order, whose stripped lower-cased text contains the stripped lower-cased query |
| OcrHelper.FindText | ocr_helper.py:12-36 | no match is `{"found": False}`; a match yields its text, the truncated means of its box's coordinates and confidence × 100; an empty box divides by zero |
| OcrHelper.BlankQueryMatchesFirst | ocr_helper.py:19-22 | a blank query matches the first result of any non-empty list |
| OcrHelper.CentroidInsideBox | ocr_helper.py:23-26 | for an axis-aligned box the centre lies within its corners |
| OcrHelper.Cli | ocr_helper.py:39-50 | every exception gives found False and its text; otherwise the result of find_text |
| OcrService.FirstEqualFrom | backend/services/helper/ocr_service.py:23-24 | the first normalised text from the start index that equals the search; None iff there is none |
| OcrService.FirstEqual | backend/services/helper/ocr_service.py:21-24 | the first result whose stripped lower-cased text equals the stripped lower-cased search |
| OcrService.LookupAt | backend/services/helper/ocr_service.py:25-29 | for a result with four corners, the truncated mean of its top-left and bottom-right corners with its text and confidence; otherwise the all-None tuple |
| OcrService.FindTextInImage | backend/services/helper/ocr_service.py:11-34 | found iff the image reads and an equal result with four corners exists, and then the LookupAt tuple of the first such result; otherwise the all-None tuple |
| OcrService.ExactMatchIsSubstringMatch | backend/services/helper/ocr_service.py:24 | whatever the service finds, the substring search of ocr_helper.py finds at the same index or earlier |
| Api.DetailOr | src/services/api.js:25 | `detail \|\| fallback`: an absent or empty detail gives the fallback |
| Api.HandleApiError | src/services/api.js:23-36 | 400 gives the detail or "Invalid request"; ≥500 the server-error text; otherwise ECONNABORTED the timeout text; another response the detail or "Request failed with status N"; no response the network-error text |
| Api.LegacyErrorMessage | frontend/src/services/api.js:44-54 | the same first three branches; everything else is the network-error text |
| Api.ClassificationsDiffer | frontend/src/services/api.js:44-54 | the two clients agree on exactly the failures other than a non-timeout response whose status is not 400 and below 500 |
| Api.SubmitComplianceTest | src/services/api.js:101-111 | POST /run-test with exactly the game URL and test type |
| Api.StartRegressionTest | src/services/api.js:66-76 | the same request as a compliance test of type "Regression" |
| Api.SubmitTestStep | src/services/api.js:86-98 | POST /run-test-step with the test id, class id, screenshot and `clicked` flag |
| Api.Call | src/services/api.js:101-111 | the reply's data, or the error handleApiError throws |
| Stepwise.Clicked | src/hooks/useStepwiseTest.js:59-62 | `clicked` is the `passed` flag of the last entry of the history the callback sees, false when it is empty |
| Stepwise.NextClassOf | src/hooks/useStepwiseTest.js:129 | `next_step?.class_id ?? null` |
| Stepwise.CoordsFor | src/hooks/useStepwiseTest.js:86-97 | a manual override first, then the reply's next-step coordinates, then the detection's click point |
| Stepwise.ClickOf | src/hooks/useStepwiseTest.js:99-101 | a click iff the step passed, coordinates exist and the window can click, at those coordinates |
| Stepwise.Drive | src/hooks/useStepwiseTest.js:133-163 | a completed run reports the test id it started with; each turn submits the screenshot captured at that turn |
| Stepwise.CompletesOnReachedComplete | src/hooks/useStepwiseTest.js:141-149 | a reached reply with status "complete" completes the run with its final result and the pre-run history plus its step |
| Stepwise.CompletedOnlyOnComplete | src/hooks/useStepwiseTest.js:141-149 | a run completes only on a reached reply whose status is "complete" |
| Stepwise.TerminatesWithoutNextClass | src/hooks/useStepwiseTest.js:152-156 | a reached reply that is not complete and names no next class id raises FlowTerminated |
| Stepwise.StartPost | src/hooks/useStepwiseTest.js:119-123 | both start branches post the same /run-test request |
| Stepwise.FinalOf | src/hooks/useStepwiseTest.js:143 | after completion, the server's final result or `{status: 'complete'}`; none otherwise |
| Stepwise.ErrorOf | src/hooks/useStepwiseTest.js:160-166 | cancellation sets "Test was cancelled", a raise sets its message, completion and waiting set none |
| Stepwise.StepwiseTest.constructor | src/hooks/useStepwiseTest.js:16-26 | the initial state of the hook |
| Stepwise.StepwiseTest.PushHistory | src/hooks/useStepwiseTest.js:29-31 | appends one entry; nothing else changes |
| Stepwise.StepwiseTest.Reset | src/hooks/useStepwiseTest.js:33-43 | clears every field of the hook |
| Stepwise.StepwiseTest.OverrideClickCoords | src/hooks/useStepwiseTest.js:198-200 | sets the override of one class; nothing else changes |
| Stepwise.StepwiseTest.Cancel | src/hooks/useStepwiseTest.js:202-204 | sets the cancel flag; nothing else changes |
| Stepwise.StepwiseTest.PerformStep | src/hooks/useStepwiseTest.js:48-106 | not started or no screenshot API raises with nothing sent; otherwise one step request with the stale `clicked`, and on a reply it is stored, appended to the history and its click made; the result is the reply or handleApiError's message |
| Stepwise.StepwiseTest.RetryStep | src/hooks/useStepwiseTest.js:177-192 | raises unless started and the class has a history entry; then performs the step with the current history |
| Stepwise.StepwiseTest.Run | src/hooks/useStepwiseTest.js:112-171 | reset, the start request, then the loop; the outcome and the new history, requests, clicks, replies and current class are those of the specification RunTrace; running iff waiting; the final result and error as FinalOf/ErrorOf |
| Stepwise.StepwiseTest.RunLoop | src/hooks/useStepwiseTest.js:133-163 | the `while` loop computes Drive |
| Stepwise.StartFromBackend | backend/app.py:114-119 | the backend's /run-test reply has a test id and no next step |
| Stepwise.BackendRunStopsBeforeFirstStep | src/hooks/useStepwiseTest.js:128-136 | started against the backend, a run raises "Backend did not provide next class_id" (or is cancelled) with no step sent |
| Stepwise.StepsReportStaleClicked | src/hooks/useStepwiseTest.js:59-70 | a run only appends to history, requests and clicks; every request it sends goes to /run-test-step with the `clicked` of the pre-run history |
| Stepwise.CompletedHistory | src/hooks/useStepwiseTest.js:145-149 | a completed run returns the pre-run history plus only the last step result |
| ProgressPanel.ClassIds | src/components/components/TestProgressPanel.jsx:55 | the class ids of the history, in order |
| ProgressPanel.Count | src/components/components/TestProgressPanel.jsx:48-51 | occurrences among the first `hi` elements, at most `hi` |
| ProgressPanel.CountMonotone | src/components/components/TestProgressPanel.jsx:48-51 | counts grow with the prefix |
| ProgressPanel.NthIndexFrom | src/components/components/TestProgressPanel.jsx:52-62 | the index of the element with the given rank from a start index; None iff too few occurrences |
| ProgressPanel.NthIndex | src/components/components/TestProgressPanel.jsx:52-62 | the index whose element equals c with exactly n equal elements before it; None iff at most n occurrences |
| ProgressPanel.MatchedIndex | src/components/components/TestProgressPanel.jsx:47-64 | position i shows the history entry of its class whose rank equals i's rank among that class's positions |
| ProgressPanel.MatchedInOrder | src/components/components/TestProgressPanel.jsx:47-64 | positions of the same class show distinct entries in history order |
| ProgressPanel.StepHistory | src/components/components/TestProgressPanel.jsx:47-64 | the loops give MatchedIndex's entry for every position |
| ProgressPanel.ShownEntry | src/components/components/TestProgressPanel.jsx:48-63 | one position's entry, by the two loops of the callback |
| ProgressPanel.CurrentStep | src/components/components/TestProgressPanel.jsx:67-85 | non-negative iff there is a current class with at least one history entry and at least that many flow positions; then a position of that class whose rank is the history count minus one; -1 otherwise |
| ProgressPanel.CurrentShowsLatest | src/components/components/TestProgressPanel.jsx:67-85 | the current position shows the latest history entry of the current class |
| ProgressPanel.CurrentStepIdx | src/components/components/TestProgressPanel.jsx:67-85 | the loops compute CurrentStep |
| ProgressPanel.StatusBadge | src/components/components/TestProgressPanel.jsx:4-35 | Passed iff passed; In progress iff failed and current; Failed iff failed and not current; never Pending |
| ProgressPanel.IsCurrent | src/components/components/TestProgressPanel.jsx:116 | current iff at the current index and no final result with a non-empty status exists |
| ProgressPanel.NothingCurrentAfterCompletion | src/components/components/TestProgressPanel.jsx:116 | after a completed run whose final result has a status, or has none, no position is current |
| ComplianceHook.ComplianceTest.constructor | src/hooks/useComplianceTest.js:10-12 | not loading, no error, no result |
| ComplianceHook.ComplianceTest.Begin | src/hooks/useComplianceTest.js:20-34 | loading, error and result cleared, the same request whether or not sub-tests are given |
| ComplianceHook.ComplianceTest.Settle | src/hooks/useComplianceTest.js:36-43 | stores the result or the error message, loading ends either way |
| ComplianceHook.ComplianceTest.RunTest | src/hooks/useComplianceTest.js:20-44 | afterwards exactly one of result and error is set, and loading is false |
| ComplianceHook.ComplianceTest.ClearError | src/hooks/useComplianceTest.js:46-48 | only the error is cleared |
| ComplianceHook.ComplianceTest.ClearResult | src/hooks/useComplianceTest.js:50-52 | only the result is cleared |
| HomePage.NormalizeUrl | src/components/Home/HomePage.jsx:64-67 | the trimmed URL, with "https://" in front unless it starts with "http://" or "https://"; always has a scheme |
| HomePage.PrefixedIsTrimmed | src/components/Home/HomePage.jsx:66 | prefixing a trimmed URL keeps it trimmed |
| HomePage.NormalizeUrlIdempotent | src/components/Home/HomePage2.jsx:64-67 | normalising twice is normalising once |
| HomePage.OpenUrl | src/components/Home/HomePage.jsx:61-75 | a blank input opens nothing and shows "Please enter a URL first"; otherwise the normalised URL opens |
| HomePage.Submit | src/components/Home/HomePage.jsx:104-118 | a tab opens iff the input is not blank; the request carries the URL as typed |
| HomePage.SubTestsOf | src/components/Home/HomePage.jsx:78 | the sub-tests of the first option with that label, wherever it is; [] when none has it |
| HomePage.Without | src/components/Home/HomePage.jsx:78 | the elements not excluded, no more than the input |
| HomePage.WithoutAppend | src/components/Home/HomePage.jsx:78 | filtering distributes over concatenation, so the order of the input is kept |
| HomePage.WithoutNothing | src/components/Home/HomePage.jsx:78 | excluding nothing present gives the input unchanged |
| HomePage.SelectingRemovesOption | src/components/Home/HomePage.jsx:78 | selecting one more sub-test removes exactly it from the options, the rest in order |
| HomePage.SubTestOptions | src/components/Home/HomePage.jsx:78 | offered iff a sub-test of the type and not yet selected; with none of them selected, all of them in the options' order |
| HomePage.RemoveAll | src/components/Home/HomePage.jsx:94-96 | the removed value is gone, every other value kept with its multiplicity |
| HomePage.NoDupByMultiset | src/components/Home/HomePage.jsx:87-88 | multiplicities at most one mean no duplicates |
| HomePage.MultisetOfNoDup | src/components/Home/HomePage.jsx:87-88 | no duplicates means multiplicities at most one |
| HomePage.RemoveAllKeepsNoDup | src/components/Home/HomePage.jsx:94-96 | removal keeps a duplicate-free selection duplicate-free |
| HomePage.RemoveAbsent | src/components/Home/HomePage.jsx:94-96 | removing an absent value changes nothing |
| HomePage.RemoveAllAppend | src/components/Home/HomePage.jsx:94-96 | removal distributes over concatenation |
| HomePage.Toggled | src/components/Home/HomePage2.jsx:198-204 | a selected sub-test is removed, an unselected one appended |
| HomePage.ToggleTwice | src/components/Home/HomePage2.jsx:198-204 | toggling twice restores an unselected sub-test's selection and moves a selected one to the end; the multiset is unchanged |
| HomePage.SubTestSelection.constructor | src/components/Home/HomePage.jsx:19-22 | an empty selection |
| HomePage.SubTestSelection.Choose | src/components/Home/HomePage.jsx:81-83 | sets the value to add |
| HomePage.SubTestSelection.AddSubTest | src/components/Home/HomePage.jsx:86-91 | appends a non-empty, unselected value and clears the choice; otherwise nothing changes; the selection stays duplicate-free |
| HomePage.SubTestSelection.AddOption | src/components/Home/HomePage.jsx:207-211 | the clicked option ends up selected, appended if new, and the selection stays duplicate-free |
| HomePage.SubTestSelection.Toggle | src/components/Home/HomePage2.jsx:198-204 | the selection becomes Toggled; the sub-test is selected afterwards iff it was not before |
| HomePage.SubTestSelection.RemoveSubTest | src/components/Home/HomePage2.jsx:94-96 | the selection becomes RemoveAll, duplicate-free |
| HomePage.SubTestSelection.ChangeTestType | src/components/Home/HomePage.jsx:173 | a new test type empties the selection |

## Left out

- Foreign calls are parameters: SHA-256, Python's `hash` (salted per process), base64 and PIL decoding, the YOLO model, EasyOCR, `time.time()`, `asyncio.sleep`, logging, `window.open`, `window.api`, axios and React's render scheduling.
- The JavaScript orchestration scripts that services return are opaque values. Only which script is chosen is modelled.
- Floating point is modelled as real arithmetic: no float rounding of centres, sizes or `round(confidence * 100, 2)`.
- Text.Lower: maps only the ASCII letters A to Z. Python's `str.lower` and JavaScript's `toLowerCase` also change other Unicode letters, and that is not modelled. Trimming is exact: `Text.Strip` uses Python's `str.isspace` set and `Text.Trim` uses JavaScript's whitespace and line terminators (`Text.TrimsDiffer`).
- Exception texts: the text of the error that base64 or PIL decoding raises is the abstract `Env.decodeError`, and `str` of a float is the abstract `Env.floatStr`. Two texts are written out for specific versions: the unbound-variable message is CPython 3.11's wording, and the `image_data` validation message is pydantic 1.x's.
- App.ImageDataOf: the backend is modelled against pydantic 1.x. Under it, `image_data: str = None` accepts None and coerces numbers to strings. Under pydantic 2.x an explicit None fails validation, so every request without image data would be answered 400; that version is not modelled.
- App.TestRequest is the body after FastAPI's validation: `gameUrl` is the string that `str()` gives for pydantic 1.x's `HttpUrl`, taken as given. Bodies that fail this validation are answered 422 by FastAPI, which is not modelled.
- ServiceRegistry.TestServiceFactory.ExecuteTest: for the detection service it uses the corrected DetectService.ValidateRequest (see Findings). With only the help-detection fix applied, every detection request fails with "Invalid request for test type: UI Element Detection".
- App.RunTest: through the factory it uses the same corrected detection check. With only the help-detection fix applied, every detection request is answered 400 with that text.
- DetectService.ClassIdsOf: only lists of integers are modelled for `class_ids`. Any other truthy value fails with a model-defined message instead of Python's later TypeError.
- The except branches of the Regression, Banking, Playcheck, Practice Play and Multiple Spin services are unreachable: nothing in their try blocks raises on a well-typed request. The model says "always success" for them. The shared shape is still BaseService.ErrorResponse.
- The Net Position service is defined but not registered by the factory. It is modelled but reachable only directly (ServiceRegistry.NetPositionUnregistered). The commented-out copy of it is not modelled.
- The help-detection service has no `validate_request`. The registry's corrected model accepts every request for it (see Findings).
- `CLASS_FLOW` aliasing is not modelled. Each regression instance holds a fresh copy of `REGRESSION_FLOW`, so the flow is a constant.
- The `/run-test-step` endpoint is not defined by any backend file, so its replies are inputs.
- Stepwise.StepwiseTest.Run: cancellation that arrives while a run awaits is modelled only as `cancelAt`, the turn at which the loop sees the flag. `reset` clears the overrides once, at the start of the run, and the loop then runs with no overrides. In the source, `performStep` reads the override ref afresh at every step, so an override made while a run awaits a reply decides the click of every later step of its class; the model does not capture such overrides.
- Stepwise.StepwiseTest.Run: the `onUpdate` callback is not modelled. When the run is still waiting for its next reply, the pending request is not yet in `sent`.
- Api.HandleApiError: a `detail` that is not a string (a FastAPI validation list) is not modelled.
- Toast messages and their timers, the JSX rendering, the loading spinner, Electron's main process and the `backend-backup` copy are not modelled.
- `helper_functions.py` functions other than the three string helpers are Playwright, HTTP and file I/O code and are not modelled.

## Findings

| source | as written | input that shows it | evidently intended | confidence | as-written member | corrected member |
|---|---|---|---|---|---|---|
| backend/services/detect_service.py:69 | `hasattr(request, 'class_ids')` is always False on a TestExecutionRequest, so `validate_request` rejects every request and the factory never runs detection | image_data "aGk=", additional_params {"class_ids": [1]} | require truthy `additional_params["class_ids"]` | high, not executed | DetectService.ValidateRequestAsWritten | DetectService.ValidateRequest |
| backend/services/help_detection_service.py:6-49 | the class does not implement the abstract `validate_request`, so instantiating it raises TypeError and `TestServiceFactory()` fails while registering the default list (ServiceRegistry.AsWrittenFactoryRaises) | `TestServiceFactory()` at test_service_factory.py:66 | a `validate_request` that accepts the request, so all nine services register | high, not executed | ServiceRegistry.InstantiateAsWritten | ServiceRegistry.DefaultRegistry |
