# nomad-hpc in Dafny: collectors, diagnostics, scoring, readiness and configuration

This project models the deterministic core of nomad-hpc (NØMAD), a monitoring and teaching toolkit for HPC clusters and departmental workstations, and proves properties of that model. The model covers six groups of code:

- **Collectors, the parsers.** These read `zpool list -Hp`, `zpool status`, the ARC kstat table, `exportfs -v`, `uptime`, `/proc/meminfo`, `df -k`, `who` and `ps aux` output. The model also covers the health tests of pools, storage servers and workstations, and how one workstation's record is filled in step by step.
- **Interactive sessions.** This covers how RStudio and Jupyter processes are classified, the session summary, and the per-user / per-type report with its three alert lists.
- **The educational engine.**
  - The five per-job proficiency scores and the fingerprint that collects them.
  - Trajectories over time windows, with the first-versus-last improvement and the group summary.
  - The explainer's colours, its run-time formatting and its comparison with recent history.
- **The ML data-readiness estimator.** This covers the sample-size thresholds, the balance, feature and accuracy scores, the collection forecast, the limiting factor and the recommendations.
- **The diagnostic engines for nodes, storage and workstations.** This covers:
  - the issue-accumulating report and its severity;
  - the duration formatter and the colours;
  - the analyzer registry;
  - the cause rules and the recommendation rules.
- **The command line.**
  - How the configuration path and database path are resolved.
  - The choice of collectors in `collect`.
  - The TOML file that `init` writes, and how its wizard resumes an interrupted run.

There is one Dafny module per source file. Six helper modules support them:

- `Wrappers`: Option;
- `Text`: Python string primitives on ASCII;
- `Lists`: de-duplication, counting and sums;
- `Assoc`: ordered dictionaries;
- `Sorting`: stable sort by key;
- `StringOrder`: Python string order and `sorted`.

The code takes three forms in the model:

- Loops in the source are methods with loop invariants. Each is proved equal to a specification function on values, and the properties are lemmas about those functions.
- Objects whose fields are updated in place are classes with the same fields: `ZFSPool`, `StorageStats`, `WorkstationStats`, `DiagnosticReport` and `AnalyzerRegistry`.
- Pure rules are functions.

Python floats are Dafny reals. Dictionaries whose order is observable are association lists.

Everything outside the program is an input:

- database rows;
- command outputs, with `None` for a command that timed out or failed;
- the clock;
- `/proc`;
- the values of `log10` and `sqrt`;
- the verdicts of the derivative analyzer.

Where a docstring and the code disagree, the model follows the code:
- `score_memory`: the docstring puts the excellent zone at 60-95 % utilisation. In the code, the score reaches 85 exactly between 50 % and 90 % (`Scoring.MemoryIdealZone`).
- `score_cpu`: the docstring's bands ("≥ 50 → Good") do not match the code. The code scores `min(100, 1.1·avg)` and takes the level from the common thresholds.
- `estimate_required_sample_size`: the module docstring of nomad/ml/estimator.py and the `minimum_jobs` default of the readiness record say a minimum of 100 jobs. With the default arguments the code asks for 178 (`Estimator.DefaultSampleSizes`). The floor of 100 still holds for any arguments (`Estimator.RequiredSampleSize`).

Other behaviour that the model keeps as written:
- A workstation record is never `offline`. `_collect_workstation` catches the `CollectionError` of every command, so `collect`'s `offline` branch cannot be reached. An unreachable host is reported as online with default figures (`WorkstationCollector.NeverOffline`).
- A cluster dictionary without `type` is written as `type = "hpc"`. It is also counted among the HPC clusters for `[collectors.slurm]`, yet its description and table names use the workstation-group labels (`CliInit.UntypedClusterLabels`). The wizard always sets `type`, so this does not show in practice.
- The `enabled` list written by `init` is not what `collect` reads. `collect` reads `enabled` inside each `collectors.<name>` table, and `interactive` only from its own top-level table.
- At an improvement of exactly -5, `UserTrajectory.summary` says "Declining" while `group_summary` counts the user as stable (`Progress.DecliningBoundary`).
- The used-GPU score 85 is labelled "Good", although 85 is "Excellent" by the thresholds (`Scoring.GpuLevelIsFixed`).
- The summary's stale count and the stale-session alert agree only for a positive idle limit (`InteractiveReport.StaleCounted`, `InteractiveReport.StaleDisagree`).
- In node diagnosis, a NULL exit code counts as non-zero.
- `parse_uptime` takes its hours and minutes from the first `digits:digits` of the output, which on a standard `uptime` line is the time of day. The collector's records carry that reading; the intended reading is the subject of the one row under "## Findings".
- In storage diagnosis, three causes match no recommendation test: a pool's "approaching full" issue, "Rapid Storage Fill Rate" and "Storage Fill Rate Increasing".

## Model

| member | source | states |
|---|---|---|
| Scoring.ProficiencyLevel | nomade/edu/scoring.py:34-47 | Excellent exactly from 85, Good exactly in [65, 85), Developing exactly in [40, 65), Needs Work exactly below 40 |
| Scoring.LevelsTable | nomade/edu/scoring.py:34-47 | walking the threshold table in order (85, 65, 40, 0, then the fallback) gives the same level as the cascade of comparisons |
| Scoring.ProficiencyMonotone | nomade/edu/scoring.py:42-47 | a higher score never gets a lower level |
| Scoring.Repeat | nomade/edu/scoring.py:53 | `c * n` has max(n, 0) characters, all equal to `c` |
| Scoring.FilledWithin | nomade/edu/scoring.py:50-53 | for a score in [0, 100], the number of filled cells is between 0 and the width |
| Scoring.BarShape | nomade/edu/scoring.py:50-53 | for a score in [0, 100], the bar has exactly `width` cells: the filled block characters first, then the light ones |
| Scoring.Clamp100 | nomade/edu/scoring.py:239 | `min(100, max(0, x))` lies in [0, 100] and leaves a value already there unchanged |
| Scoring.CpuScoreOf | nomade/edu/scoring.py:140 | the CPU score is at most 100, is positive for a positive average, and is 100 exactly when 1.1 times the average reaches 100 |
| Scoring.CpuScoreMonotone | nomade/edu/scoring.py:140 | more CPU use never scores lower |
| Scoring.ScoreCpu | nomade/edu/scoring.py:110-173 | defined exactly where `score_cpu` does not raise: the average is not a text, and with a truthy average `req_cpus` (default 1) is a number; the CPU dimension is then not applicable (50, Unknown) exactly when the average is missing, NULL or 0, and otherwise carries the CPU score and the level that score reaches; for a non-negative average the score is in [0, 100] |
| Scoring.MemoryScoreOf | nomade/edu/scoring.py:226-239 | the memory score lies in [0, 100] for every utilisation |
| Scoring.MemoryIdealZone | nomade/edu/scoring.py:226-239 | the memory score reaches 85 exactly for utilisations from 50% to 90% |
| Scoring.MemoryPeak | nomade/edu/scoring.py:226-239 | the memory score is 100 at 70% utilisation and nowhere else |
| Scoring.ScoreMemory | nomade/edu/scoring.py:176-266 | an out-of-memory job (state OUT_OF_MEMORY or OOM, any case) scores 15, Needs Work; otherwise a job without peak or requested memory is not applicable at 50; otherwise the score is that of peak / requested * 100 with its level |
| Scoring.TimeScoreOf | nomade/edu/scoring.py:318-331 | the time score lies in [0, 100] for every ratio |
| Scoring.TimeIdealZone | nomade/edu/scoring.py:318-331 | the time score reaches 85 exactly for ratios from 0.50 to 0.85 |
| Scoring.TimePeak | nomade/edu/scoring.py:318-331 | the time score is 100 at a ratio of 0.67 and nowhere else |
| Scoring.ScoreTime | nomade/edu/scoring.py:269-373 | a TIMEOUT job scores 20, Needs Work; otherwise a falsy runtime or requested time is not applicable at 50; otherwise the score is that of runtime / requested time with its level |
| Scoring.IoScoreOf | nomade/edu/scoring.py:419-432 | the I/O score, after the I/O-wait penalty, lies in [10, 100] |
| Scoring.IoScoreAntitone | nomade/edu/scoring.py:419-432 | a larger NFS share never scores higher |
| Scoring.ScoreIo | nomade/edu/scoring.py:376-454 | defined exactly where `score_io` does not raise: no write column holds a truthy text, and from 0.1 GB written neither the ratio column nor the I/O wait is a text; not applicable (50) exactly when the ratio column is missing or NULL and nothing was written; under 0.1 GB written a fixed 80, Good, whatever the ratio column holds; otherwise the ratio score (the column, else the NFS share of the writes) with its level |
| Scoring.ScoreGpu | nomade/edu/scoring.py:457-502 | defined exactly where `score_gpu` does not raise, that is unless `req_gpus` is a truthy text; no GPU requested: not applicable at 0; requested and used: 85, Good; requested and unused: 10, Needs Work |
| Scoring.GpuLevelIsFixed | nomade/edu/scoring.py:480-487 | the used-GPU score of 85 is labelled Good although the thresholds make 85 Excellent |
| Sorting.SortBySpec | nomade/collectors/interactive.py:328-331 | `sorted(xs, key=k)` is ordered by the key and is a permutation of its input |
| Sorting.SortBySorted | nomade/collectors/interactive.py:328-331 | the result of `sorted(xs, key=k)` is ordered by the key |
| Sorting.SortByPerm | nomade/collectors/interactive.py:328-331 | the result of `sorted(xs, key=k)` holds exactly the input's elements, each as often |
| Sorting.SortByStable | nomade/collectors/interactive.py:328-331 | `sorted` is stable: the elements with any one key keep their input order, so equal-memory sessions and users stay in collection order |
| Scoring.OverallBounds | nomade/edu/scoring.py:80-86 | the overall score is 0 when no dimension applies, and otherwise lies between any bounds of the applicable scores |
| Scoring.FingerprintPartition | nomade/edu/scoring.py:92-107 | `needs_work` and `strengths` together hold exactly the applicable dimensions; the first are all below 65 and sorted by score, the second all at least 65 |
| Scoring.ScoreJob | nomade/edu/scoring.py:505-526 | defined exactly where none of the five scorers raises (`WellTyped`); the fingerprint carries the job and user ids (default "unknown") and the five dimension scores in the order cpu, memory, time, io, gpu |
| Scoring.ReqCpusRaises | nomade/edu/scoring.py:143 | a NULL or text `req_cpus` beside a truthy CPU average makes scoring raise |
| Scoring.ReqGpusRaises | nomade/edu/scoring.py:486 | a truthy text `req_gpus` makes scoring raise |
| Scoring.RatioTextRaises | nomade/edu/scoring.py:406-419 | a text `nfs_ratio` makes scoring raise once 0.1 GB or more was written |
| Scoring.TextRatioMinimalWrites | nomade/edu/scoring.py:390-412 | below 0.1 GB written, a text ratio column counts as present: the I/O dimension is applicable at a fixed 80, Good |
| Scoring.ScoreJobInRange | nomade/edu/scoring.py:505-526 | with a non-negative CPU average, every dimension score and the overall score lie in [0, 100] |
| Progress.Trajectory.Summary | nomade/edu/progress.py:62-74 | the verdict is "too few" exactly below 3 jobs, and otherwise strong improvement above 15, improving in (5, 15], stable in (-5, 5], declining at or below -5 |
| Progress.ImprovingIffVerdict | nomade/edu/progress.py:58-74 | once there are 3 jobs, `is_improving` holds exactly for the two improving verdicts |
| Progress.SplitJobFields | nomade/edu/progress.py:142-153 | the job half has exactly the 18 job columns; the summary half has exactly the row's other columns |
| Progress.SplitRecombines | nomade/edu/progress.py:142-153 | the halves do not overlap; each column of the row keeps its value in the half its name selects; a job column the row lacks reads NULL |
| Progress.ScoreJobs | nomade/edu/progress.py:156-167 | the loop scores each row in turn and skips a row whose scoring raises (it equals the fold `ScoredRows`) |
| Progress.ScoredRowsCount | nomade/edu/progress.py:156-167 | one fingerprint per row on which `score_job` does not raise (`WellTyped` of the split row: a missing job column reads as NULL) |
| Progress.WindowJobsMembers | nomade/edu/progress.py:210-214 | a fingerprint is in the window exactly when it is among the scored jobs and its end time lies in `[start, end)` |
| Progress.WindowAt | nomade/edu/progress.py:210-239 | a window is kept exactly when some fingerprint ends inside it; it records its bounds and its job count |
| Progress.WindowsBounds | nomade/edu/progress.py:204-241 | every window starts before `now`, at or after the lookback start, spans the window size and counts its fingerprints, at least one |
| Progress.WindowsOrdered | nomade/edu/progress.py:204-241 | the windows are in chronological order, each ending before the next starts |
| Progress.AtMostOneWindow | nomade/edu/progress.py:204-214 | with half-open consecutive windows a fingerprint falls into at most one window |
| Progress.WindowAverages | nomade/edu/progress.py:216-231 | a window scores a dimension exactly when one of its jobs has an applicable score for it, and then holds the mean of those scores; its overall is the mean of its averages |
| Progress.WindowLoop | nomade/edu/progress.py:200-241 | the `while` loop over the windows yields exactly `WindowsFrom` |
| Progress.WindowStep | nomade/edu/progress.py:205-239 | one pass builds the window's per-dimension lists, averages them and keeps the window when it holds a fingerprint |
| Progress.ImprovementSpec | nomade/edu/progress.py:258-264 | the improvement has a dimension exactly when both windows score it, with last minus first |
| Progress.ImprovementLoop | nomade/edu/progress.py:258-264 | the loop over `all_dims` builds exactly `Improvement`, whatever order the set yields |
| Progress.AddGain | nomade/edu/progress.py:262-264 | one pass adds the dimension's gain when both windows score it and leaves every other entry alone |
| Progress.UserTrajectory | nomade/edu/progress.py:170-276 | the method computes `TrajectoryOf` |
| Progress.TrajectoryFromJobs | nomade/edu/progress.py:196-276 | the part after the row check computes `JobsTrajectory` |
| Progress.BuildTrajectory | nomade/edu/progress.py:243-276 | the part after the window loop computes `FromWindows` |
| Progress.TrajectoryNone | nomade/edu/progress.py:192-255 | there is no trajectory exactly when there are fewer than 3 rows, fewer than 3 scored jobs, or no non-empty window |
| Progress.TrajectoryShape | nomade/edu/progress.py:243-276 | a trajectory counts the scored jobs, keeps the windows in chronological order and takes the current scores from the last window; one window gives no improvement, several give last minus first per dimension and overall |
| Progress.FromWindowsShape | nomade/edu/progress.py:243-276 | the trajectory is absent exactly when there is no window, and otherwise is built from the first and last windows |
| Progress.MinIndex | nomade/edu/progress.py:361 | `min(d, key=d.get)` picks the first entry whose value no entry undercuts |
| Progress.MaxIndex | nomade/edu/progress.py:362 | `max(d, key=d.get)` picks the first entry whose value no entry exceeds |
| Progress.Weakest | nomade/edu/progress.py:361 | "unknown" exactly when there are no averages; otherwise a dimension whose average is the smallest |
| Progress.Strongest | nomade/edu/progress.py:362 | "unknown" exactly when there are no averages; otherwise a dimension whose average is the largest |
| Progress.ComputeGroupSummary | nomade/edu/progress.py:279-390 | the method computes `GroupOf` |
| Progress.CollectTrajectories | nomade/edu/progress.py:316-332 | the member loop collects the trajectories in member order, the job total and the earliest and latest end times |
| Progress.SummaryFrom | nomade/edu/progress.py:337-390 | the aggregation after the loop computes `Summarize` |
| Progress.AppendFolds | nomade/edu/progress.py:324-332 | one more trajectory adds its jobs to the total and moves the earliest and latest dates only when its own are strictly outside them |
| Progress.OutcomeAt | nomade/edu/progress.py:322-324 | the outcome recorded for member `i` is that member's trajectory |
| Progress.PresentCount | nomade/edu/progress.py:322-335 | there are no more trajectories than members, and none exactly when every member's is absent |
| Progress.CountPartition | nomade/edu/progress.py:338-340 | every trajectory is improving, declining or stable, and exactly one of them |
| Progress.GroupCases | nomade/edu/progress.py:298-335 | `group_summary` is None exactly when the membership query fails, the group is empty or no member has a trajectory; otherwise it summarises the members' trajectories, no more of them than members |
| Progress.SummarizeShape | nomade/edu/progress.py:337-390 | the summary keeps the name, member count and users; its three counts partition the users by the 5-point thresholds; its job total, date range, average improvement and per-dimension improvements are taken over the users |
| Progress.EarliestSpec | nomade/edu/progress.py:326-328 | the earliest date is some user's first end time and no user's is earlier; absent exactly when no user has one |
| Progress.LatestSpec | nomade/edu/progress.py:329-331 | the latest date is some user's last end time and no user's is later; absent exactly when no user has one |
| Progress.AvgOverallWithin | nomade/edu/progress.py:364-368 | with every current score in [0, 100], the group's average overall lies in [0, 100] |
| Progress.DecliningBoundary | nomade/edu/progress.py:338-340 | at an improvement of exactly -5 the one-line summary says "Declining" while the group test of lines 71-74 counts the user as stable |
| Progress.DimImprovementsSpec | nomade/edu/progress.py:348-358 | a dimension has an average improvement exactly when some user's trajectory improves on it, and that average is the mean of those improvements |
| Explain.ScoreColor | nomade/edu/explain.py:47-55 | green exactly from 85, cyan exactly in [65, 85), yellow exactly in [40, 65), red exactly below 40 |
| Explain.LevelColor | nomade/edu/explain.py:57-66 | a label gets white exactly when it is none of the four coloured level labels |
| Explain.ScoreColorByLevel | nomade/edu/explain.py:47-66 | a score is shown in the colour of the label of its proficiency level |
| Explain.UncoloredLevels | nomade/edu/explain.py:57-66 | the labels of an unscored or inapplicable dimension fall back to white |
| Explain.Clock | nomade/edu/explain.py:208-209 | the two `divmod` steps give hours, minutes and seconds whose total is the input, with minutes and seconds in [0, 60) |
| Explain.FmtTime | nomade/edu/explain.py:204-214 | the dash appears exactly for no time or zero seconds |
| Explain.FmtTimeReadBack | nomade/edu/explain.py:204-214 | reading the printed time back gives the seconds truncated to whole minutes from one hour on, the exact time below one hour, and only the remainder modulo one hour for a negative time |
| Explain.SplitHistoryRow | nomade/edu/explain.py:142-160 | the job half has exactly the 18 job columns, the summary half exactly the 12 summary columns, each read from the row with NULL when absent |
| Explain.HistoryOf | nomade/edu/explain.py:158-162 | one scored result per older row, in row order |
| Explain.InitialSpec | nomade/edu/explain.py:156 | the empty table has one empty list per dimension of the current job, in its order |
| Explain.AddScoresSpec | nomade/edu/explain.py:164-166 | the inner loop raises exactly when an applicable dimension has no list; otherwise it keeps the table's dimensions and extends each list by that dimension's applicable scores |
| Explain.FoldSpec | nomade/edu/explain.py:158-166 | the outer loop raises exactly when `score_job` raises on a row (not `WellTyped`) or the row names a dimension with no list; otherwise each list ends up extended by its applicable scores over all rows, in row order |
| Explain.AddScoresPrefixNone | nomade/edu/explain.py:164-166 | once the inner loop raises, the rest of the row does not matter |
| Explain.FoldPrefixNone | nomade/edu/explain.py:158-166 | once the outer loop raises, the later rows do not matter |
| Explain.TrendOf | nomade/edu/explain.py:181-189 | improving exactly above +5, declining exactly below -5, stable in between |
| Explain.TrendsGet | nomade/edu/explain.py:169-195 | the trend loop has an entry for a dimension exactly when its list has at least 3 scores and the current dimension is applicable |
| Explain.ProgressFails | nomade/edu/explain.py:127-166 | fewer than 3 history rows give an empty result; otherwise the computation raises exactly when `score_job` raises on some older row (not `WellTyped`) or it names a dimension missing from the current job |
| Explain.TableReported | nomade/edu/explain.py:156-195 | on the accumulated table, the trend loop reports exactly the compared dimensions, each with the entry built from its history scores |
| Explain.ProgressReported | nomade/edu/explain.py:127-197 | a dimension is reported exactly when at least three older jobs scored it as applicable and the current job's dimension is applicable; its entry compares the current score with the mean of those scores |
| Explain.ProgressSkipsNewest | nomade/edu/explain.py:158 | the newest history row never enters the comparison |
| Explain.EntryBounds | nomade/edu/explain.py:177-195 | for scores in [0, 100], the previous average lies in [0, 100], the delta in [-100, 100], and the delta is the current score minus the previous average |
| Explain.AddScoresLoop | nomade/edu/explain.py:164-166 | the inner loop computes `AddScores` |
| Explain.StepRow | nomade/edu/explain.py:159-166 | one pass scores the row and then appends its applicable scores |
| Explain.FoldLoop | nomade/edu/explain.py:158-166 | the outer loop computes `Fold` over the scored rows |
| Explain.TrendsLoop | nomade/edu/explain.py:169-195 | the trend loop computes `TrendsOf` |
| Explain.ComputeProgress | nomade/edu/explain.py:127-197 | the method computes `ProgressOf` |
| Explain.ExplainJob | nomade/edu/explain.py:343-381 | no report exactly when the job is missing or empty; a raise exactly when `score_job` raises on the job (not `WellTyped`) or, with progress, the history comparison raises; otherwise the report carries the job's fingerprint, an empty summary when none was found, the progress only when asked, and JSON exactly for "json" |
| Explain.ScoredDimsDistinct | nomade/edu/scoring.py:519-525 | the five dimensions of a scored job are distinct |
| Explain.ExplainedProgress | nomade/edu/explain.py:366-369 | a report with progress lists a dimension exactly when it is compared |
| Estimator.Trunc | nomad/ml/estimator.py:62-64 | Python's `int` on a float, as used here and at line 152, truncates toward zero |
| Estimator.Ceil | nomad/ml/estimator.py:267-269 | `math.ceil` is the least integer not below its argument |
| Estimator.TruncMono | nomad/ml/estimator.py:62-64 | truncation is monotone on non-negative numbers |
| Estimator.AdjustedSize | nomad/ml/estimator.py:56-60 | the feature- and ML-adjusted size is non-negative |
| Estimator.RequiredSampleSize | nomad/ml/estimator.py:49-68 | a zero effect size is the division error; otherwise the floors 100, 500 and 1000 always hold, the three thresholds are ordered and 15 jobs per feature are asked |
| Estimator.DefaultSampleSizes | nomad/ml/estimator.py:49-68 | with the defaults the thresholds are 178, 500 and 1000 |
| Estimator.BalanceOfRate | nomad/ml/estimator.py:76-86 | 100 exactly for failure rates in [0.15, 0.35]; at least 80 exactly in [0.10, 0.45]; at least 60 exactly in [0.05, 0.55]; at least 40 exactly in [0.02, 0.70]; otherwise 20 |
| Estimator.ClassBalanceScore | nomad/ml/estimator.py:71-86 | no jobs give (0, "No data") |
| Estimator.BalanceByRate | nomad/ml/estimator.py:71-86 | two populations with the same failure rate get the same score |
| Estimator.Weight | nomad/ml/estimator.py:134-146 | critical features weigh 2 and every other feature 1 |
| Estimator.FeatureQuality | nomad/ml/estimator.py:136-147 | a feature's score lies in [44, 100] |
| Estimator.FeatureScoreBounds | nomad/ml/estimator.py:130-152 | no features score 0; otherwise the score lies in [44, 100] |
| Estimator.FeatureScoreIsDoubledMean | nomad/ml/estimator.py:144-152 | weighing a critical feature 2 is listing it twice: the score is the truncated plain mean with the critical scores repeated |
| Estimator.ComputeFeatureScore | nomad/ml/estimator.py:130-152 | the loop computes the weighted, truncated mean `FeatureScoreOf`; the issue list stays empty |
| Estimator.TotalWeightLoop | nomad/ml/estimator.py:148-149 | the sum of the weights is `TotalWeight` |
| Estimator.EstimateAccuracy | nomad/ml/estimator.py:195-209 | the estimate lies in [0.50, 0.95], the interval stays within [0.40, 0.99], contains the estimate and is at most 0.40 wide |
| Estimator.AccuracyMonotoneInBalance | nomad/ml/estimator.py:203-205 | a better balance score never lowers the estimate |
| Estimator.MarkerPrefix | nomad/ml/estimator.py:298-321 | only the "[ok]" marker makes a message start with "[ok]" |
| Estimator.GenerateRecommendations | nomad/ml/estimator.py:295-321 | the method builds exactly `Recommendations`: the first unmet sample threshold, the failure advice, the feature and recency advice, then the verdict |
| Estimator.OkPrefix | nomad/ml/estimator.py:318-321 | only the ready verdict starts with "[ok]" |
| Estimator.MarkerDone | nomad/ml/estimator.py:318-319 | only the ready verdict carries the "[ok]" marker |
| Estimator.RecommendationsSampleCount | nomad/ml/estimator.py:298-306 | with ordered thresholds there is at most one sample-size message, present exactly while the optimal size is not reached |
| Estimator.RecommendationsClose | nomad/ml/estimator.py:318-321 | the list ends with the verdict, which starts with "[ok]" exactly when the data is ready for training |
| Estimator.RecommendationsNoFailures | nomad/ml/estimator.py:307-308 | the missing-failures warning appears exactly when no job failed |
| Estimator.MinOf | nomad/ml/estimator.py:254 | `min(dates)` is one of the dates and no date is smaller |
| Estimator.MaxOf | nomad/ml/estimator.py:255 | `max(dates)` is one of the dates and no date is larger |
| Estimator.RangeDays | nomad/ml/estimator.py:256 | the range is at least one day, and otherwise the whole number of days between the extreme dates |
| Estimator.DaysToReach | nomad/ml/estimator.py:266-269 | nothing missing gives 0 days, something missing at least 1 |
| Estimator.DaysToReachLeast | nomad/ml/estimator.py:266-269 | at the rate, the days cover what is missing and one day fewer does not |
| Estimator.DaysToBalance | nomad/ml/estimator.py:270-277 | days to the failure target at the failure rate, -1 when no failures arrive, 0 when none are needed |
| Estimator.FailuresNeeded | nomad/ml/estimator.py:270-271 | non-negative, and 0 exactly when the failures reach max(10, 5% of the minimum) |
| Estimator.LimitingFactor | nomad/ml/estimator.py:278-287 | the first unmet requirement in the order sample size, class balance, feature coverage, recency; none when all are met |
| Estimator.ConfidenceOf | nomad/ml/estimator.py:288-291 | high exactly from 14 days and 100 dates; medium exactly from 7 days and 50 dates otherwise; else low |
| Estimator.PerDay | nomad/ml/estimator.py:257-259 | a rate is non-negative and positive exactly when something was counted |
| Estimator.PerDayTimes | nomad/ml/estimator.py:257-259 | the rate times the days gives back the count |
| Estimator.ForecastEarly | nomad/ml/estimator.py:224-253 | no jobs, or fewer than two dated ones, stop with zero day counts, no balance estimate, low confidence and the matching limiting factor |
| Estimator.ForecastFromDates | nomad/ml/estimator.py:227-292 | from two dated jobs on, the estimate is the forecast from their instants and failures |
| Estimator.ForecastDays | nomad/ml/estimator.py:254-269 | the collection rate is positive and each day count is the least number of days after which the jobs reach that threshold |
| Estimator.ForecastFields | nomad/ml/estimator.py:254-269 | the rates are the counts over the range in days, and the day counts are those of the jobs still missing |
| Estimator.LeastDaysOf | nomad/ml/estimator.py:266-269 | `DaysToReach` gives the least whole number of days after which the goal is reached |
| Estimator.ForecastBalance | nomad/ml/estimator.py:270-292 | the forecast's balance estimate, failure rate, limiting factor and confidence |
| Estimator.EstimateTimeToReadiness | nomad/ml/estimator.py:212-292 | the date-collecting loop followed by the forecast computes `TimeToReadiness` |
| Estimator.SampleBand | nomad/ml/estimator.py:348-359 | optimal, recommended, minimum and insufficient exactly in their bands; below the minimum the score is proportional and under 60 |
| Estimator.DefaultSizes | nomad/ml/estimator.py:347 | the default thresholds are ordered and at least 100 |
| Estimator.ReportReady | nomad/ml/estimator.py:384 | ready for training exactly when the minimum is reached, at least ten jobs failed and the balance scores at least 40 |
| Estimator.AssessReady | nomad/ml/estimator.py:324-391 | with the default thresholds the data is ready from 178 jobs, ten failures and a balance of 40, and the recommendations then close with "[ok]" |
| Estimator.ReportScores | nomad/ml/estimator.py:344-370 | with a recency score in [0, 100], every score of the report lies in [0, 100] |
| DiagBase.AnyAppend | nomad/diag/base.py:97-101 | an issue of a severity is among the issues plus one more exactly when it is among the first or is the new one |
| DiagBase.SeverityIsWorstIssue | nomad/diag/base.py:94-103 | the report's severity is that of its worst issue (unknown labels count as info), healthy when there is none |
| DiagBase.SeverityMonotone | nomad/diag/base.py:89-103 | adding an issue never lowers the report's severity |
| DiagBase.DiagnosticReport.constructor | nomad/diag/base.py:78-87 | a new report has no issues and no recommendations |
| DiagBase.DiagnosticReport.AddIssue | nomad/diag/base.py:89-92 | the issue is appended, the recommendations are extended by its own in order, and the severity does not drop |
| DiagBase.FormatDurationReadBack | nomad/diag/base.py:170-185 | reading the printed duration back gives the input exactly below one hour, and otherwise the input truncated to whole minutes (below a day) or whole hours |
| DiagBase.FormatDurationZero | nomad/diag/base.py:172-173 | None and 0 both print "0s" |
| DiagBase.SeverityColorOfReport | nomad/diag/base.py:230-237 | every severity a report can have gets a colour other than gray, and red exactly when some issue is critical |
| DiagBase.StatusColorCaseInsensitive | nomad/diag/base.py:240-249 | the status colour does not depend on letter case, and a missing status is gray |
| DiagBase.AnalyzerRegistry.constructor | nomad/diag/base.py:256-259 | the registry starts empty |
| DiagBase.AnalyzerRegistry.Register | nomad/diag/base.py:261-264 | the name now maps to the class, every other name is unchanged, and a new name is appended to the insertion order while a known one keeps its place |
| DiagBase.AnalyzerRegistry.ForDevice | nomad/diag/base.py:276-281 | every registered class, in insertion order, whatever the device type |
| DiagBase.RegisterAnalyzer | nomad/diag/base.py:284-289 | the decorator registers the class under the name, leaves other names alone and returns the class unchanged |
| DiagNode.GetFailureSummary | nomad/diag/node.py:112-138 | the total is the number of jobs; the failures are the jobs not COMPLETED; `failure_types` counts each failure key (reason, else state, else UNKNOWN) and its counts add up to the failures; `exit_codes` counts each nonzero code of a failed job; the users are those of the failed jobs; the rate is failures over max(total, 1) and lies in [0, 1] |
| DiagNode.TallyJobs | nomad/diag/node.py:121-135 | after the loop the failure count, both tallies and the user set describe exactly the jobs seen |
| DiagNode.TallyStep | nomad/diag/node.py:121-135 | one job moves each tally from the jobs before it to the jobs including it |
| DiagNode.KeyTallyStep | nomad/diag/node.py:126-127 | counting a failed job's key keeps `failure_types` equal to the per-key count |
| DiagNode.CodeTallyStep | nomad/diag/node.py:132-134 | counting a nonzero exit code keeps `exit_codes` equal to the per-code count |
| DiagNode.FailedUsersStep | nomad/diag/node.py:125 | the user set grows by the job's user exactly when the job failed |
| DiagNode.RateBounds | nomad/diag/node.py:137 | a count over a positive denominator no smaller than it lies in [0, 1] |
| DiagNode.DrainCause | nomad/diag/node.py:154-180 | the drain reason always yields a drain-kind cause: OOM for "oom" or "memory", else GPU, else health check, else admin drain |
| DiagNode.DrainCauseCaseInsensitive | nomad/diag/node.py:155-169 | the classification of a reason does not depend on its letter case |
| DiagNode.Kinds | nomad/diag/node.py:141-225 | the cause kinds, position by position |
| DiagNode.AnalyzePotentialCauses | nomad/diag/node.py:141-225 | a node with no state row gets exactly the "not reporting" cause; for a reporting node a set reason puts its drain cause first and no other drain cause follows, memory pressure (> 95%), OOM kills (exit 137), a failure rate above 0.3 and CPU load above twice the CPUs each appear iff their condition holds, and the fallback appears iff none fires, then alone |
| DiagNode.ReportingCauses | nomad/diag/node.py:152-223 | the five rules in order, or the fallback when none fires, satisfy the reporting-node facts |
| DiagNode.RuleCauses | nomad/diag/node.py:152-215 | the rules contribute the drain kind when the reason is set followed by the memory, OOM, failure-rate and CPU kinds of the rules that fire, in that order |
| DiagNode.RuleKindSeqMembers | nomad/diag/node.py:182-215 | each rule's kind is present iff its rule fires; the fallback and "not reporting" never come from a rule; no kind at all iff no rule fires |
| DiagNode.RuleKindSeqDrains | nomad/diag/node.py:152-180 | a drain kind only ever comes first |
| DiagNode.NodeRecommendationsSpec | nomad/diag/node.py:227-266 | the recommendations have no duplicates; when some cause has advice the resume step closes the list, and otherwise the healthy message is all there is; every cause's advice is present and nothing else is |
| DiagNode.CauseRecs | nomad/diag/node.py:229-258 | no cause's own advice is the resume step or the healthy message |
| DiagNode.GenerateRecommendations | nomad/diag/node.py:227-266 | the loop builds exactly the reference recommendation list |
| DiagNode.ResourceSummary | nomad/diag/node.py:309-316 | no history gives no aggregate; otherwise the sample count is the row count, the mean load and memory times the count equal their sums with NULL as 0, and the number of distinct states lies between 1 and the sample count |
| DiagNode.DiagnoseNode | nomad/diag/node.py:269-334 | the first ten history rows and jobs are kept in order; the failure summary counts all jobs and the failed ones, tallies the failure types and non-zero exit codes of exactly those jobs, names their users and divides by the job count (at least 1); a node without a state row gets exactly the "not reporting" cause, NOT_FOUND and no reason or time stamp, and a reporting node the causes of the five rules (or the fallback); the recommendations are those of the causes |
| DiagStorage.PoolDiag | nomad/diag/storage.py:176-187 | a pool dictionary's missing health reads as UNKNOWN and its missing name as unknown |
| DiagStorage.PoolIssuesSpec | nomad/diag/storage.py:190-203 | a pool has the health issue iff its health is not ONLINE, the nearly-full issue iff capacity > 90, the approaching-full issue iff 80 < capacity <= 90, the fragmentation issue iff fragmentation > 50 and the errors issue iff the error counts add up above 0; nothing else, at most one capacity issue and at most four issues |
| DiagStorage.PoolDiagsSpec | nomad/diag/storage.py:169-207 | one diagnostic per dictionary entry, the k-th describing the k-th dictionary |
| DiagStorage.AnalyzeZfsPools | nomad/diag/storage.py:169-207 | the loop skips the entries that are not dictionaries and keeps the others' order |
| DiagStorage.PointsSpec | nomad/diag/storage.py:139-149 | one data point per row whose time stamp is not unparsable text, in history order |
| DiagStorage.AnalyzeUsageTrend | nomad/diag/storage.py:132-166 | the empty result exactly when the history is empty, the analyzer is missing or fewer than three rows survive; otherwise the analyzer gets the surviving points, at least three, and the newest row's capacity |
| DiagStorage.TrendOf | nomad/diag/storage.py:158-166 | the empty result carries no alert level and no days; a missing alert level reads as normal |
| DiagStorage.NoTrendCauseWhenNormal | nomad/diag/storage.py:271-286 | no analysis, or a normal one, raises no trend cause |
| DiagStorage.AnalyzePotentialCauses | nomad/diag/storage.py:210-295 | a device with no state gets exactly the "not reporting" cause; otherwise above 95% usage gives the almost-full cause and 85-95% the high-usage cause, never both; the pool causes are one per pool issue, pool by pool; a low ARC hit ratio (< 0.7), more than 100 NFS clients and a critical or warning trend each give their cause iff the condition holds; the fallback appears iff nothing fires, and then alone; the list is never empty |
| DiagStorage.CollectPoolCauses | nomad/diag/storage.py:240-249 | the loop over pools and issues yields exactly the reference pool causes |
| DiagStorage.PoolCausesSpec | nomad/diag/storage.py:240-249 | one pool cause per issue of every pool, the k-th reporting the k-th (pool, issue) pair |
| DiagStorage.IssuePairsSpec | nomad/diag/storage.py:240-242 | the pairs are exactly the pools' issues, one per issue |
| DiagStorage.RulesFacts | nomad/diag/storage.py:226-286 | before the fallback, each cause kind is present iff its rule fires |
| DiagStorage.ReportingCauses | nomad/diag/storage.py:226-293 | the rules in order, or the fallback alone when none fires, satisfy the reporting-device facts |
| DiagStorage.IssueConfidenceByKind | nomad/diag/storage.py:243 | on the issues the pool analysis produces, confidence is high iff the issue is the health or the errors issue, and medium otherwise |
| DiagStorage.MediumConfidenceIssues | nomad/diag/storage.py:243 | capacity and fragmentation issue texts contain neither "health" nor "error" in any letter case, so they are medium |
| DiagStorage.HighConfidenceIssues | nomad/diag/storage.py:243 | health and errors issue texts are high |
| DiagStorage.Advice | nomad/diag/storage.py:302-341 | no single cause contributes the scrub tip or the healthy message |
| DiagStorage.StorageRecommendationsSpec | nomad/diag/storage.py:298-350 | no duplicates; the scrub tip is present iff some cause name contains ZFS; the healthy message is present iff nothing else was added, and is then all there is; every cause's advice is present and nothing else is |
| DiagStorage.GenerateRecommendations | nomad/diag/storage.py:298-350 | the loop builds exactly the reference recommendation list |
| DiagStorage.CollectAdvice | nomad/diag/storage.py:302-341 | the loop over the causes concatenates each cause's advice in order |
| DiagStorage.AdviceWhenStorageFull | nomad/diag/storage.py:305-308 | a name holding "Storage" and "Full" or "Usage" gets the large-files advice, the first branch |
| DiagStorage.AdviceWhenArc | nomad/diag/storage.py:329-332 | an ARC cause name that no earlier test matches gets the ARC advice |
| DiagStorage.AdviceWhenNfs | nomad/diag/storage.py:334-336 | an NFS cause name that no earlier test matches gets the NFS advice |
| DiagStorage.AdviceWhenUnreachable | nomad/diag/storage.py:338-341 | a "not reporting" cause name that no earlier test matches gets the reachability advice |
| DiagStorage.AdviceWhenNothingMatches | nomad/diag/storage.py:302-341 | a name that no test matches gets no advice |
| DiagStorage.RapidFillDetail | nomad/diag/storage.py:271-280 | the rapid-fill detail names the predicted days exactly when they are truthy |
| DiagWorkstation.MemPct | nomad/diag/workstation.py:196-198 | memory use is 0% when the total (default 1) is not positive, and otherwise the used share of the total times 100 |
| DiagWorkstation.AnalyzePotentialCauses | nomad/diag/workstation.py:182-295 | a machine with no state gets exactly the "not reporting" cause; otherwise the causes are the rules' in rule order, or the fallback alone when none fires; memory above 95% is critical and 85-95% high, never both; more than 1024 MB of swap is heavy; the disk thresholds are the same as memory's; load above twice the CPU count is an overload and above the CPU count otherwise a high load; more than ten zombies are many and one to ten present; a trend cause appears iff that trend's alert level is critical; the list is never empty |
| DiagWorkstation.ReportingAnalysis | nomad/diag/workstation.py:195-293 | a reporting machine's causes are the rules' in rule order, or the fallback alone when none fires |
| DiagWorkstation.RuleCauses | nomad/diag/workstation.py:195-286 | the rules' causes are appended in the order the rules are checked |
| DiagWorkstation.ReportingCauses | nomad/diag/workstation.py:195-293 | causes in rule order meet every threshold fact, and the fallback appears iff no rule fires |
| DiagWorkstation.RulesKinds | nomad/diag/workstation.py:201-286 | the rule causes have, in order, the kinds their thresholds select |
| DiagWorkstation.RuleKindFacts | nomad/diag/workstation.py:201-286 | each threshold's kind is present iff its condition holds, and neither fixed cause comes from a rule |
| DiagWorkstation.IssueIffKinds | nomad/diag/workstation.py:288-293 | some rule fires exactly when some threshold is crossed |
| DiagWorkstation.FallbackFacts | nomad/diag/workstation.py:288-293 | when no rule fires, no threshold is crossed and the facts hold for the fallback alone |
| DiagWorkstation.DiskTrendDetail | nomad/diag/workstation.py:277-286 | the disk trend detail names the predicted days exactly when they are truthy |
| DiagWorkstation.UnmappedKinds | nomad/diag/workstation.py:300-345 | a cause gets no advice exactly when it is high CPU load, a few zombies or the fallback |
| DiagWorkstation.KindAdvice | nomad/diag/workstation.py:300-345 | no single cause contributes the healthy message |
| DiagWorkstation.WorkstationRecommendationsSpec | nomad/diag/workstation.py:298-351 | no duplicates; the healthy message is present iff no cause contributed anything, and is then all there is; every cause's advice is present and nothing else is |
| DiagWorkstation.GenerateRecommendations | nomad/diag/workstation.py:298-351 | the loop builds exactly the reference recommendation list |
| DiagWorkstation.NotReportingAdvice | nomad/diag/workstation.py:342-345 | a machine that is not reporting is told to ping it, check SSH and verify the network, and nothing else |
| CollectStorage.ZpoolLineAccepted | nomad/collectors/storage.py:205-221 | a `zpool list` row is accepted exactly when it has at least ten tab-separated fields and its sizes, FRAG, CAP and DEDUP convert, with `-` read as 0 (FRAG, CAP) or 1.0 (DEDUP) and a trailing `%` or `x` dropped |
| CollectStorage.ReadPoolRow | nomad/collectors/storage.py:205-219 | reading back the row `zpool list -Hp` prints for a pool gives that pool's fields |
| CollectStorage.PoolListConcat | nomad/collectors/storage.py:199-223 | pools come out in input order: the pools of joined lines are the first lines' pools, then the second's |
| CollectStorage.PoolListMembers | nomad/collectors/storage.py:202-221 | a pool is listed exactly when some non-empty line is accepted and reads as that pool |
| CollectStorage.PoolListCount | nomad/collectors/storage.py:202-221 | the number of pools is the number of accepted non-empty lines |
| CollectStorage.ZFSPool.constructor | nomad/collectors/storage.py:32-52 | a new pool holds the listed fields, is unscanned, and has no scrub errors |
| CollectStorage.AddListed | nomad/collectors/storage.py:203-221 | one line adds its pool, as a fresh object, or nothing |
| CollectStorage.ParseZpoolList | nomad/collectors/storage.py:199-223 | the pools are fresh, distinct objects holding exactly the parsed rows, in order, each unscanned |
| CollectStorage.ScrubDateLeftmost | nomad/collectors/storage.py:247-250 | the scrub date is the text of the leftmost match of the date pattern, and there is none exactly when no position matches |
| CollectStorage.PoolIndex | nomad/collectors/storage.py:236 | the first pool with the name, or none exactly when no pool has it |
| CollectStorage.StatusStep | nomad/collectors/storage.py:230-261 | one status line keeps the cursor on a listed pool and the status list's length |
| CollectStorage.ZpoolStatus | nomad/collectors/storage.py:226-263 | the scan gives one status per listed pool |
| CollectStorage.ScanConcat | nomad/collectors/storage.py:230-261 | scanning two runs of lines is scanning the first, then the second from where it stopped |
| CollectStorage.IgnoredWithoutPool | nomad/collectors/storage.py:234-239 | lines before the first `pool:` line change nothing |
| CollectStorage.UnknownPoolIgnored | nomad/collectors/storage.py:234-239 | a `pool:` line naming no listed pool clears the cursor and changes no status |
| CollectStorage.UnselectedUnchanged | nomad/collectors/storage.py:230-261 | a pool that is not current and that no line selects keeps its scrub and error fields |
| CollectStorage.ScanNonNegative | nomad/collectors/storage.py:255-259 | error counters read from the table are never negative, since a non-digit word reads as 0 |
| CollectStorage.DegradedRowAnyPool | nomad/collectors/storage.py:253-259 | as written, a row mentioning DEGRADED with five or more words sets the current pool's counters whichever pool it names |
| CollectStorage.OnlineRowNeedsName | nomad/collectors/storage.py:253 | a row without DEGRADED that does not contain the current pool's name leaves the counters alone |
| CollectStorage.UpdatePool | nomad/collectors/storage.py:242-259 | one status line applies the scrub branch and then the error branch to the current pool |
| CollectStorage.StatusLine | nomad/collectors/storage.py:231-259 | one status line on the pool objects does what the scan step does on values |
| CollectStorage.ParseZpoolStatus | nomad/collectors/storage.py:226-263 | the same list comes back, no pool added, removed or reordered, and each pool's scrub and error fields are those the scan gives |
| CollectStorage.ArcLastWins | nomad/collectors/storage.py:270-290 | for every kstat the parser reads, the last converting row for it wins, and without one the field keeps its starting value, 0 for a fresh record |
| CollectStorage.HitRatio | nomad/collectors/storage.py:291-295 | the hit ratio is hits over hits plus misses when that total is positive, else 0, and lies in [0, 1] for non-negative counters |
| CollectStorage.ReadArcRow | nomad/collectors/storage.py:271-290 | one kstat row assigns the field its name maps to |
| CollectStorage.ParseArcStats | nomad/collectors/storage.py:266-296 | the loop gives exactly the reference statistics |
| CollectStorage.ExportsSpec | nomad/collectors/storage.py:299-321 | one export per distinct path, in order of first appearance, listing its rows' clients in order with the last row's options |
| CollectStorage.ParseExportfs | nomad/collectors/storage.py:299-321 | the loop gives exactly the reference exports |
| CollectStorage.ListedRowHealthy | nomad/collectors/storage.py:72-80 | a pool fresh from a listed row is healthy iff its health is ONLINE and its capacity under 85 |
| CollectStorage.ErrorsUnhealthy | nomad/collectors/storage.py:72-80 | any nonzero error counter makes a pool unhealthy |
| CollectStorage.StorageStats.constructor | nomad/collectors/storage.py:121-149 | a new device record is online with no pools, exports or ARC statistics and zero totals |
| CollectStorage.StorageStats.IsHealthy | nomad/collectors/storage.py:170-180 | healthy iff the status is online, usage is under 90 and every pool is healthy |
| CollectStorage.StorageStats.SettleStatus | nomad/collectors/storage.py:399-403 | the status becomes online when the device is healthy and degraded otherwise; nothing else changes |
| CollectStorage.CollectZfs | nomad/collectors/storage.py:407-438 | without a pool list nothing changes; otherwise the pools are the list's, scanned by the status output when there is one, the ARC statistics are parsed when available, the byte totals grow by the pools' sums, and the usage percentage is set only when the total is positive |
| CollectStorage.TotalsLoop | nomad/collectors/storage.py:432-435 | the totals grow by the sums of the pools' size, allocated and free bytes |
| CollectStorage.UsageInRange | nomad/collectors/storage.py:437-438 | with used bytes between zero and a positive total, the usage percentage lies in [0, 100] |
| CollectWorkstation.ParseUptime | nomad/collectors/workstation.py:157-182 | the loop gives the reference reading: the three load averages of the first `load average` match (0 without one, no result when one does not convert), plus the day count times 86400 and, as written at line 174, the hours and minutes of the first `digits:digits` anywhere in the output |
| CollectWorkstation.UptimeFromParts | nomad/collectors/workstation.py:162-182 | the uptime reading is the loads together with the days' seconds and the seconds of the first `digits:digits` in the output (`ClockSeconds`, the reading as written) |
| CollectWorkstation.NoLoadAverage | nomad/collectors/workstation.py:163-170 | without a load-average match all three loads stay 0 and the reading succeeds |
| CollectWorkstation.UptimeOfEmpty | nomad/collectors/workstation.py:162-182 | an empty output gives no uptime and no load |
| CollectWorkstation.LoadAveragePrinted | nomad/collectors/workstation.py:166-170 | a `load average: a, b, c` text, as `uptime` prints it, reads as its three numbers |
| CollectWorkstation.ClockAsWritten | nomad/collectors/workstation.py:174-180 | as written, an output that starts with the time of day `hh:mm` takes that time as its hours and minutes of uptime, whatever follows |
| CollectWorkstation.UptimeClockOfField | nomad/collectors/workstation.py:173-180 | the corrected reading takes the hours and minutes from the `H:M` that follows `up D days`, whatever comes before `up` |
| CollectWorkstation.SampleAsWritten | nomad/collectors/workstation.py:159-180 | on the sample line in the source's own comment, the as-written reading counts 10 hours 30 minutes, the time of day |
| CollectWorkstation.SampleOfField | nomad/collectors/workstation.py:159-180 | on the same line the corrected reading counts the 3 hours 45 minutes the host has been up |
| CollectWorkstation.SampleUptimeAsWritten | nomad/collectors/workstation.py:157-180 | on the sample line the collector's reading adds 37800 seconds, the time of day 10:30, to the days |
| CollectWorkstation.ClockFinding | nomad/collectors/workstation.py:157-180 | on the sample line uptime 5 days, 3:45, the as-written clock reading is 37800 seconds (10:30, the time of day); the corrected reading is 13500 seconds (3:45) |
| CollectWorkstation.ReadMemLine | nomad/collectors/workstation.py:189-195 | one line gives its stripped key and the first number of its value, or nothing |
| CollectWorkstation.ParseMeminfo | nomad/collectors/workstation.py:185-196 | the loop gives exactly the reference map |
| CollectWorkstation.MeminfoLastWins | nomad/collectors/workstation.py:188-195 | a key is present exactly when some line has an entry for it, and its value is that of the last such line |
| CollectWorkstation.MemEntryPrinted | nomad/collectors/workstation.py:189-195 | a `key: number unit` line, as the kernel prints it, gives the stripped key and the number |
| CollectWorkstation.MemoryFrom | nomad/collectors/workstation.py:325-330 | the derived memory figures are not negative, except that the used figure is at most the total |
| CollectWorkstation.MemoryPctBounds | nomad/collectors/workstation.py:122-127 | the memory percentage is 0 without a total and lies in [0, 100] when the used figure does |
| CollectWorkstation.MemoryPctAtMost100 | nomad/collectors/workstation.py:122-127 | the percentage of memory derived from /proc/meminfo never exceeds 100 |
| CollectWorkstation.ParseDf | nomad/collectors/workstation.py:199-214 | the loop gives exactly the reference reading |
| CollectWorkstation.DfHeaderIgnored | nomad/collectors/workstation.py:201 | the header line is never read |
| CollectWorkstation.DfFirstRow | nomad/collectors/workstation.py:201-213 | the first row of six or more words for the path decides the result |
| CollectWorkstation.DfNoRow | nomad/collectors/workstation.py:214 | without a row for the path the result is four zeros |
| CollectWorkstation.DfRowPrinted | nomad/collectors/workstation.py:202-213 | a `df -k` row reads back as its figures, the sizes converted from kB to GB |
| CollectWorkstation.ParseWho | nomad/collectors/workstation.py:217-236 | the loop gives exactly the reference sessions |
| CollectWorkstation.WhoCount | nomad/collectors/workstation.py:220-235 | one session per non-blank line of at least three words |
| CollectWorkstation.WhoLineByLine | nomad/collectors/workstation.py:220-235 | lines are read in order: the first line's session comes before those of the rest |
| CollectWorkstation.WhoRowPrinted | nomad/collectors/workstation.py:223-234 | a `who` row reads back as its user, terminal, login date and time, and remote host |
| CollectWorkstation.UsersLoggedIn | nomad/collectors/workstation.py:345 | the number of distinct users is at most the number of sessions, and at least one when there is a session |
| WorkstationCollector.WorkstationStats.constructor | nomad/collectors/workstation.py:48-91 | a new record has every figure zero, no sessions, and the status online |
| WorkstationCollector.WorkstationStats.Fill | nomad/collectors/workstation.py:307-360 | the collected figures are stored and the status is kept; the record is healthy iff it is online, memory and disk are under 95%, there are fewer than ten zombies and the load is under twice the CPUs |
| WorkstationCollector.WorkstationStats.Settle | nomad/collectors/workstation.py:362-366 | the status becomes online when the record is healthy and degraded otherwise; nothing else changes |
| WorkstationCollector.ReadUptime | nomad/collectors/workstation.py:307-312 | the uptime step parses what `uptime` printed, if it printed, with `parse_uptime` as written (the clock term is the first `digits:digits` of the output) |
| WorkstationCollector.ReadMemory | nomad/collectors/workstation.py:321-332 | the memory step derives the MB figures from /proc/meminfo, if it was read |
| WorkstationCollector.ReadDisk | nomad/collectors/workstation.py:334-339 | the disk step parses what `df -k /` printed, if it printed |
| WorkstationCollector.ReadSessions | nomad/collectors/workstation.py:341-347 | the sessions step parses what `who` printed, if it printed |
| WorkstationCollector.CollectHost | nomad/collectors/workstation.py:302-368 | a record comes back exactly when neither `parse_uptime` nor `parse_df` raises; it is fresh, holds the figures of each command that succeeded and the defaults of each that failed, one CPU when `nproc` fails, and is online iff healthy |
| WorkstationCollector.Collect | nomad/collectors/workstation.py:269-300 | the loop gives exactly the reference records |
| WorkstationCollector.CollectHosts | nomad/collectors/workstation.py:273-278 | one record per entry with a host name, in order; unnamed entries are skipped |
| WorkstationCollector.NeverOffline | nomad/collectors/workstation.py:280-298 | no record is ever offline: every status is online, degraded or error, and error exactly for a failed collection |
| WorkstationCollector.ErrorWhenParseFails | nomad/collectors/workstation.py:292-298 | a host's record is error exactly when `parse_uptime` or `parse_df` raised |
| WorkstationCollector.SilentHostOnline | nomad/collectors/workstation.py:302-368 | a host whose every command fails is reported online |
| WorkstationCollector.EmptyOutputsOnline | nomad/collectors/workstation.py:141-154 | a host whose commands all print nothing, as an unreachable host's do, is reported online too |
| WorkstationCollector.IdleFiguresOnline | nomad/collectors/workstation.py:129-138 | no load, one CPU and zero memory, disk and zombie figures pass the health test |
| WorkstationCollector.DegradedWhenOverloaded | nomad/collectors/workstation.py:129-138 | ten zombies, a disk at 95% or a load of twice the CPUs each make a collected host degraded |
| WorkstationCollector.CollectedMemory | nomad/collectors/workstation.py:325-328 | a collected host's used memory never exceeds its total, so its memory percentage is at most 100 |
| WorkstationCollector.ProcessCountPrinted | nomad/collectors/workstation.py:351-352 | the process count is the printed line count less the header |
| WorkstationCollector.EmptyParses | nomad/collectors/workstation.py:157-236 | the empty output of each command parses to its defaults, and an empty count does not convert |
| Interactive.DefaultCollector | nomade/collectors/interactive.py:19-38 | an empty configuration gives 24 idle hours, 4096 MB, 5 idle sessions and the server `local` |
| Interactive.ConfiguredCollector | nomade/collectors/interactive.py:35-38 | every configured threshold and the server name are kept as given |
| Interactive.TypeNameInjective | nomade/collectors/interactive.py:58-65 | the four session types are stored under four different names |
| Interactive.ClassifyIgnoresCase | nomade/collectors/interactive.py:56-67 | classifying a command does not depend on its letter case |
| Interactive.RSessionAnywhere | nomade/collectors/interactive.py:58-59 | a command mentioning `rsession` anywhere, in any case, is an RStudio session |
| Interactive.IPyKernelAnywhere | nomade/collectors/interactive.py:60-61 | a command mentioning `ipykernel` is a Python kernel unless it also mentions `rsession` |
| Interactive.IRKernelAnywhere | nomade/collectors/interactive.py:62-63 | a command mentioning `irkernel` is an R kernel unless it also mentions an earlier word |
| Interactive.JupyterLabAnywhere | nomade/collectors/interactive.py:64-65 | a command mentioning `jupyter-lab` and no kernel is a Jupyter server |
| Interactive.ReadStatusLine | nomade/collectors/interactive.py:210-213 | one status line updates the RSS or the virtual size, or fails when its number is missing |
| Interactive.ReadProcessMemory | nomade/collectors/interactive.py:200-220 | the loop gives exactly the reference memory figures |
| Interactive.StatusScanFails | nomade/collectors/interactive.py:209-220 | the scan fails exactly when some `VmRSS:` or `VmSize:` line lacks a number |
| Interactive.ScanStaysFailed | nomade/collectors/interactive.py:209-219 | once a line fails, the whole scan fails |
| Interactive.MalformedLineZeroes | nomade/collectors/interactive.py:219-220 | one malformed size line discards both figures, the good one too |
| Interactive.StatusFileRead | nomade/collectors/interactive.py:209-218 | a status file with a `VmSize:` and then a `VmRSS:` line gives both sizes in MB |
| Interactive.PsRowAt | nomade/collectors/interactive.py:51-92 | the row read at position k is what line k of the output reads as |
| Interactive.GatherFails | nomade/collectors/interactive.py:69-96 | gathering fails exactly when some row cannot be read |
| Interactive.GatherMembers | nomade/collectors/interactive.py:51-92 | every gathered session comes from a row that found it, and every such row's session is gathered |
| Interactive.ReadSession | nomade/collectors/interactive.py:52-92 | one line of `ps aux` is skipped, unreadable, or a session with the memory its status file reports |
| Interactive.SessionOfParts | nomade/collectors/interactive.py:53-92 | the columns of one line are read exactly as the reference row |
| Interactive.Collect | nomade/collectors/interactive.py:40-98 | the loop gives exactly the reference sessions, or raises |
| Interactive.UnreadableLineFails | nomade/collectors/interactive.py:69-72 | one line whose pid, %CPU or %MEM does not convert fails the whole collection |
| Interactive.CollectedSessionFacts | nomade/collectors/interactive.py:69-92 | every collected session belongs to the collector's server, is idle exactly when its CPU is below 1%, has the memory and start time its process reports, and is the session of one of the lines |
| Interactive.SessionLineCollected | nomade/collectors/interactive.py:51-92 | every readable session line is collected |
| Interactive.NoPsNoSessions | nomade/collectors/interactive.py:44-96 | a failed `ps` raises |
| Interactive.HeaderOnly | nomade/collectors/interactive.py:51 | an output that is only the header holds no session |
| Interactive.CollectFails | nomade/collectors/interactive.py:51-96 | collection raises exactly when some line is a session whose numbers do not convert |
| Interactive.PsLineRead | nomade/collectors/interactive.py:52-92 | a `ps aux` line of ten columns and a command naming a session type, with a numeric pid, %CPU and %MEM, gives exactly that session |
| Interactive.OtherProcessSkipped | nomade/collectors/interactive.py:66-67 | the same line with a command naming no session type is skipped |
| InteractiveReport.CountSession | nomade/collectors/interactive.py:167-186 | one session updates each count of the summary by its own test |
| InteractiveReport.BuildSummary | nomade/collectors/interactive.py:156-198 | the loop gives exactly the reference summary |
| InteractiveReport.SummaryUsers | nomade/collectors/interactive.py:158-168 | the unique users are exactly the sessions' users, so there are no more of them than sessions |
| InteractiveReport.SummaryBounds | nomade/collectors/interactive.py:167-198 | idle sessions are at most all sessions, stale at most idle, memory hogs at most all, and the three typed counts do not overlap |
| InteractiveReport.AddUserSession | nomade/collectors/interactive.py:259-279 | one session updates its user's entry, creating it first when needed |
| InteractiveReport.BuildUsers | nomade/collectors/interactive.py:258-279 | the loop gives exactly the reference user table |
| InteractiveReport.UsersGet | nomade/collectors/interactive.py:258-279 | a user has an entry exactly when some session is theirs, and it holds the statistics of their sessions |
| InteractiveReport.UsersKeys | nomade/collectors/interactive.py:258-279 | every user of a session has exactly one entry and nobody else has one |
| InteractiveReport.UsersCounted | nomade/collectors/interactive.py:158-284 | the user list and the summary agree on the number of users |
| InteractiveReport.UsersAddUp | nomade/collectors/interactive.py:258-279 | every session is counted for exactly one user: the users' sessions and memory add up to the totals |
| InteractiveReport.StatsConsistent | nomade/collectors/interactive.py:270-279 | a user's RStudio and Jupyter sessions make up all their sessions, and their idle sessions are among them |
| InteractiveReport.StaleMembers | nomade/collectors/interactive.py:286-289 | the stale alerts are exactly the idle sessions with a nonzero age of at least the limit |
| InteractiveReport.HogMembers | nomade/collectors/interactive.py:291-294 | the memory hogs are exactly the sessions using at least the memory limit |
| InteractiveReport.IdleHogMembers | nomade/collectors/interactive.py:296-299 | the idle-session hogs are exactly the listed users with more idle sessions than the limit |
| InteractiveReport.HogsCounted | nomade/collectors/interactive.py:185-294 | the summary counts as many memory hogs as the alert lists |
| InteractiveReport.StaleCounted | nomade/collectors/interactive.py:181-289 | with a positive idle limit the summary counts as many stale sessions as the alert lists |
| InteractiveReport.StaleDisagree | nomade/collectors/interactive.py:181-289 | with an idle limit of zero or less, an idle session of unknown age is stale for the summary but raises no alert |
| InteractiveReport.AddByType | nomade/collectors/interactive.py:308-314 | one session updates its type's totals |
| InteractiveReport.BuildByType | nomade/collectors/interactive.py:301-314 | the loop gives exactly the reference per-type table |
| InteractiveReport.ByTypeGet | nomade/collectors/interactive.py:301-314 | each type's entry holds exactly the statistics of the sessions of that type |
| InteractiveReport.TypesCounted | nomade/collectors/interactive.py:174-314 | the four type totals add up to the number of sessions and their idle counts to the idle count, and the RStudio and kernel counts agree with the summary |
| InteractiveReport.TypeIdleBound | nomade/collectors/interactive.py:311-314 | a type's idle sessions are among its sessions |
| InteractiveReport.BuildReport | nomade/collectors/interactive.py:256-339 | the loops give exactly the reference report |
| InteractiveReport.GetReport | nomade/collectors/interactive.py:253-339 | the report of the collected sessions, or a raise when collection raises |
| InteractiveReport.ReportSessions | nomade/collectors/interactive.py:320-328 | the report lists every session exactly once, the largest memory first, and counts them in its summary |
| InteractiveReport.ReportUsers | nomade/collectors/interactive.py:281-324 | the report lists every user exactly once, the largest memory first, and counts them in its summary |
| InteractiveReport.ReportAlerts | nomade/collectors/interactive.py:286-333 | the alerts hold every memory hog once, the largest first, as many as the summary counts, and every stale session once, the oldest first; the idle-session hogs are the listed users over the idle limit |
| CliConfig.ResolveConfigPath | nomade/cli.py:65-73 | the user's `~/.config/nomade/nomade.toml` when it exists; else `/etc/nomade/nomade.toml` when that exists; else the user's path anyway |
| CliConfig.ResolvedExists | nomade/cli.py:65-73 | the chosen path is one of the two candidates, and it exists exactly when at least one of the two exists |
| CliConfig.JoinPathParts | nomade/cli.py:80 | joining a non-empty directory and a name strips one trailing slash from the directory and puts a single `/` before the name |
| CliConfig.DbPathInDataDir | nomade/cli.py:76-80 | with no `general.data_dir`, the database is `<home>/.local/share/nomade/nomade.db`; otherwise it is `nomade.db` inside the configured directory |
| CliConfig.Consider | nomade/cli.py:140-208 | one block of `collect`: the collector is appended exactly when it is wanted by `-C` and enabled; `enabled` defaults to true, and to false for interactive |
| CliConfig.SelectCollectors | nomade/cli.py:137-211 | the collectors started, in the fixed order; None ("No collectors enabled") when the list is empty |
| CliConfig.SelectOrder | nomade/cli.py:140-208 | the selection is the concatenation of the eleven blocks in source order, from disk to interactive |
| CliConfig.SelectMembers | nomade/cli.py:140-208 | a collector is selected if and only if it is a candidate, wanted by `-C`, and enabled |
| CliConfig.SelectKeepsOrder | nomade/cli.py:140-208 | selection keeps the candidates' strict order, so no collector is started twice |
| CliConfig.SelectionSpec | nomade/cli.py:137-211 | the command raises exactly when no collector is both wanted and enabled; otherwise it starts, in order and once each, exactly those that are |
| CliConfig.DefaultSelection | nomade/cli.py:140-208 | with an empty configuration and no `-C`, ten collectors start in source order, and interactive is not among them |
| CliConfig.InteractiveOffByDefault | nomade/cli.py:204-211 | `-C interactive` with no `interactive` section raises "No collectors enabled" |
| CliConfig.NodeStateClusterDefault | nomade/cli.py:180-181 | the node-state collector, given no cluster name in its own section or at top level, uses "default" |
| CliInit.CollectFilesystems | nomade/cli.py:2707-2709 | the set gathered holds exactly the file systems that some cluster lists |
| CliInit.CollectPartitions | nomade/cli.py:2716-2720 | the set gathered holds exactly the partition names of the clusters whose type is missing or "hpc" |
| CliInit.SortedOf | nomade/cli.py:2710 | `sorted()` of the gathered set is the cluster-order list, sorted with duplicates removed |
| StringOrder.SortSet | nomade/cli.py:2710 | `sorted()` of a set of strings: strictly increasing in Python's string order, holding exactly the set's members |
| StringOrder.SortUniqueSpec | nomade/cli.py:2723 | the sorted, deduplicated list is strictly increasing and contains exactly the strings of the input |
| StringOrder.IncreasingUnique | nomade/cli.py:2710 | two strictly increasing lists with the same members are equal, so `sorted()` has a single possible result |
| CliInit.AppendCluster | nomade/cli.py:2744-2789 | appends one cluster's table lines, then one sub-table per partition in insertion order |
| CliInit.AppendClusters | nomade/cli.py:2744-2789 | appends every cluster's lines, clusters in wizard order |
| CliInit.GenerateConfig | nomade/cli.py:2670-2845 | the lines written are the header, general, database, collectors, disk, slurm, gpu, nfs, cluster, alerts, interactive, email, dashboard and ml sections, in that order |
| CliInit.ArrayRoundTrip | nomade/cli.py:2701-2702 | an array written as `[ "a", "b" ]` reads back as the same list, provided no item contains a double quote |
| CliInit.ReadArrayUnquoted | nomade/cli.py:2710-2712 | no item read back from an array contains a double quote |
| CliInit.QuoteBreaksArray | nomade/cli.py:2710-2712 | items are written without escaping, so a list with a double quote in some item does not read back as itself |
| CliInit.CollectorListSpec | nomade/cli.py:2688-2698 | the list starts with disk, slurm, node_state; gpu, nfs and interactive each appear exactly when some cluster asked for them |
| CliInit.CollectorListDistinct | nomade/cli.py:2688-2698 | no collector name appears twice in the list |
| CliInit.FilesystemsSpec | nomade/cli.py:2706-2713 | `filesystems` is strictly increasing and lists exactly the file systems some cluster asked for |
| CliInit.SlurmSpec | nomade/cli.py:2715-2726 | `partitions` is strictly increasing and lists exactly the partitions of clusters whose type is missing or "hpc"; the section is omitted exactly when none of those clusters has partitions |
| CliInit.ClusterIdSpec | nomade/cli.py:2745 | a cluster id has the length of its name, contains no spaces and is lower case; a name already in that form is kept unchanged |
| CliInit.RemoteSpec | nomade/cli.py:2751-2757 | SSH lines are written only for remote clusters: three with a truthy host, two without |
| CliInit.TotalNodesAppend | nomade/cli.py:2759-2761 | the node count in the description adds up: the partitions of two runs together count the sum of the runs' nodes |
| CliInit.UntypedClusterLabels | nomade/cli.py:2749-2772 | a cluster with no `type` is written as `type = "hpc"` and counted as HPC, yet its comment and section labels are "workstation group" and "groups" |
| CliInit.TablesOfFile | nomade/cli.py:2670-2845 | apart from the `[clusters.…]` tables, a table header is in the file exactly when it is in the list `[general]`, `[database]`, `[collectors]`, `[collectors.disk]`, the optional slurm, gpu and nfs tables, `[alerts]`, `[alerts.thresholds.disk]`, the optional interactive-threshold and email tables, `[dashboard]`, `[ml]` |
| CliInit.SlurmTable | nomade/cli.py:2715-2726 | the file has a `[collectors.slurm]` table exactly when some cluster whose type is missing or "hpc" has a partition |
| CliInit.GpuTable | nomade/cli.py:2728-2731 | the file has a `[collectors.gpu]` table exactly when some cluster has GPUs |
| CliInit.NfsTable | nomade/cli.py:2733-2736 | the file has a `[collectors.nfs]` table exactly when some cluster uses NFS |
| CliInit.InteractiveThresholdsTable | nomade/cli.py:2806-2812 | the file has an `[alerts.thresholds.interactive]` table exactly when some cluster monitors interactive sessions |
| CliInit.EmailTable | nomade/cli.py:2814-2823 | the file has an `[alerts.email]` table exactly when an admin address was given |
| CliInit.EmailSpec | nomade/cli.py:2814-2823 | the email section is written exactly when an address was given, and lists that address as the only recipient |
| CliInit.PartitionListed | nomade/cli.py:2773-2789 | every partition of a cluster gets its own sub-table header |
| CliInit.ClusterListed | nomade/cli.py:2744-2789 | every cluster gets its table header, and each of its partitions a sub-table header |
| CliInit.ConfigTextLines | nomade/cli.py:2845 | when no line contains a newline, splitting the newline-joined text gives back the generated lines |
| CliInit.ConfigureRemaining | nomade/cli.py:2235-2237 | the saved clusters, followed by one freshly configured cluster for each index from the saved count up to `num_clusters` |
| CliInit.ResumeAgrees | nomade/cli.py:2235-2237 | resuming from any saved prefix gives the same clusters as a run that was never interrupted |

## Left out

- The derivative / trend analyzer (`nomad.analysis.derivatives`) and the threshold checker are not part of this model. Their verdicts are inputs: trend label, `alert_level`, `days_until_limit` and the analysis dictionary.
- SQLite access is not modelled. Every query is replaced by the rows it returns, and `store`, the history writes and `DemoDatabase` are left out.
- Subprocess and SSH are not modelled. Every command's output is an input, with `None` for the `CollectionError` of a timeout or a failed launch. The SSH key set-up of `init` is left out.
- The `/proc` reads of the interactive collector become a probe from pid to facts. These reads give a process's memory status and its start time.
- The wall clock is a parameter. This covers `datetime.now()`, the window start, the session ages, `time_ago` and the recency score. ISO time stamps are instants in whole seconds.
- Floating point is exact real arithmetic.
  - `round(x, 1)` and `round(x, 2)` of scores, averages, rates and memory totals are not applied.
  - `round()` of the fill bar is modelled, half to even.
  - `log10` and `sqrt` in `estimate_accuracy`, and `compute_feature_coverage`, are inputs.
  - `{:.1f}` formatting is modelled on exact reals, rounding half to even at the tenths digit. The binary representation of floats is not modelled.
- The strings `float()` and `int()` accept are modelled only as ASCII decimal literals. Exponents, `inf`/`nan`, underscores and non-ASCII digits and whitespace are not modelled.
- `str.lower()` is ASCII only.
- pathlib is not modelled beyond joining a directory and a name.
- Reading the TOML file, the click prompts of the wizard and saving the wizard's state file are left out. The wizard's answers are values, and configuring one cluster is a function of its index.
- Terminal and ANSI rendering is left out: `format_diagnostic`, `format_terminal`, `format_trajectory`, `format_group_summary`, `format_readiness_report`, `print_report` and the bars. The explanatory `detail` / `suggestion` text of each proficiency dimension is left out too.
- `to_dict` and logging are left out.
- The storage collector's `_collect_nfs` and `_collect_disk` are left out, apart from the `exportfs -v` parser they use. The rest of them is command invocation and a single `int()` of `wc -l` output.
- `nomad/demo.py`, the patch scripts, ML training and prediction, the dashboard and the community export are left out: they are outside the core.
- `AnalyzerRegistry` is an explicit object, not the class-level dictionary shared by the whole process.
- Messages, causes and advice are datatype constructors with a `Text` printer. The model compares constructors, and that the printer is injective is not proved.
- `CollectStorage.ParseZpoolStatus`: requires the pools passed in to be distinct objects. Two list entries that alias one `ZFSPool` object are not modelled.
- `InteractiveReport.StaleCounted`: holds only for a positive idle limit. `InteractiveReport.StaleDisagree` shows that the two counts differ otherwise.
- `CliInit.ArrayRoundTrip`: holds only for items without a double quote, because `init` writes items without escaping them (`CliInit.QuoteBreaksArray`).
- `CliInit.ConfigTextLines`: holds only when no line holds a newline, because the cluster names and paths are written unescaped.
- `Progress.UserTrajectory`, `Progress.TrajectoryOf`, `Progress.JobsTrajectory`, `Progress.TrajectoryFromJobs`, `Progress.Windows`, `Progress.WindowsFrom`, `Progress.WindowLoop` and the lemmas about them (`WindowsBounds`, `WindowsOrdered`, `TrajectoryNone`, `TrajectoryShape`): require a window size of at least one day. With `window_size <= 0` the `while current_window_start < datetime.now()` loop of nomade/edu/progress.py:204-205 never advances, so the source returns nothing to model. Both callers, nomade/edu/progress.py:323 and nomade/cli.py:3017, use the default of 7 days.

## Findings

| source | as written | input that shows it | evidently intended | confidence | as-written member | corrected member |
|---|---|---|---|---|---|---|
| nomad/collectors/workstation.py:173-180 | the hours and minutes of uptime come from the first `(\d+):(\d+)` anywhere in the `uptime` output, which is the time of day at its start | the sample line in the source's own comment, ` 10:30:01 up 5 days,  3:45,  2 users,  load average: 0.50, 0.40, 0.35`, gives 10 h 30 min (37800 s) on top of the 5 days | the `H:M` after `up` (and after `D days,`), here 3 h 45 min (13500 s) | not executed | CollectWorkstation.SampleAsWritten | CollectWorkstation.SampleOfField |
