TestResult.DisplayName,TestResult.Outcome,TestResult.Duration,TestResult.ResourceCount,RandomSeed
Prompts.ServerPrompt (well-formedness),Passed,00:00:00.4063273,809371,3
Prompts.CreatePrompt (well-formedness),Passed,00:00:00.3435893,417778,3
Prompts.DetailShowsDefault (correctness),Passed,00:00:00.3072233,3283103,3
Prompts.MissingRatioPrinted (well-formedness),Passed,00:00:00.2989214,241599,3
Prompts.MissingRatioPrinted (correctness),Passed,00:00:00.2897684,244063,3
Prompts.CreateShowsUndefined (well-formedness),Passed,00:00:00.2640248,184708,3
Prompts.CreateShowsUndefined (correctness),Passed,00:00:00.2544987,247578,3
Prompts.DetailShowsDefault (well-formedness),Passed,00:00:00.2341651,167195,3
Prompts.DetailPrompt (well-formedness),Passed,00:00:00.2210070,235118,3
Prompts.DetailOpening (well-formedness),Passed,00:00:00.2183236,55819,3
Prompts.HfPrompt (well-formedness),Passed,00:00:00.1871108,267978,3
Prompts.ClaudeFallbackPrompt (well-formedness),Passed,00:00:00.1858191,302849,3
Prompts.ClauseLength (well-formedness),Passed,00:00:00.1315981,13297,3
Prompts.ServerOpening (well-formedness),Passed,00:00:00.1040406,61085,3
Prompts.Compose (well-formedness),Passed,00:00:00.1034981,67444,3
Prompts.CreateOpening (well-formedness),Passed,00:00:00.0971373,56259,3
Prompts.ClaudeFallbackText (well-formedness),Passed,00:00:00.0528303,202584,3
Prompts.Guarded (well-formedness),Passed,00:00:00.0303401,19498,3
Prompts.GuardedLength (correctness),Passed,00:00:00.0295532,25426,3
Prompts.EndsWithInfix (correctness),Passed,00:00:00.0231887,22889,3
