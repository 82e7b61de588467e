TestResult.DisplayName,TestResult.Outcome,TestResult.Duration,TestResult.ResourceCount,RandomSeed
AdminFetchCycle.FindRouteSkips (correctness),Passed,00:00:00.3564137,386284,1
AdminFetchCycle.FindRouteSkips (well-formedness),Passed,00:00:00.3151225,213318,1
