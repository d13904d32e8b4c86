# IT Troubleshooting Trainer — a verified model of its core

The IT Troubleshooting Trainer is a single-page training app with three core features:

- **Guided troubleshooting flows.** Each flow is a small decision graph: a node asks a question and offers option buttons. Options marked *correct* add a point to a running *path score*.
- **Hands-on labs.** The student types commands into a **fake terminal**, which answers with canned replies. The lab runner records every accepted command. Its *evaluator* grades the history against a fixed set of regular-expression checks, and *evaluate* stores a completion badge.
- **A problem library.** It lists the flows, and a search box filters them.

This project models that core in Dafny and proves properties of the model.

The code is organised as follows:

- `wrappers.dfy` holds `Option`.
- `text.dfy` is the text layer:
  - the ECMAScript whitespace set (`\s`, which `String.prototype.trim` also uses);
  - the classes `\d`, `\w` and `[a-z]`;
  - the longest run of a class, which is greedy `+`;
  - ASCII lower-casing, substring search and `trim`.
- `commands.dfy` models each regular expression the app uses, in two forms. `Matches` is a greedy deterministic matcher. `Denotes` is a declarative description, with existentials where the regex engine may backtrack. `MatchesDenotes` proves the two agree. `MatchesLower` proves that the `i`-flagged patterns ignore ASCII case.
- `labs.dfy` holds:
  - the three lab definitions;
  - the evaluators, as a list of checks (`AllOf`) or a constant (`Fixed`);
  - the task-checklist heuristic and the badge key;
  - the `LabRunner` class.
- `flows.dfy` holds:
  - the two flows, with their exact text;
  - closure of the graphs;
  - walks and their scores;
  - the `Troubleshooter` class.
- `terminal.dfy` holds:
  - acceptance of a submitted line;
  - `simulateOutput`, both as the source's if-chain and as a first-match rule table;
  - the `FakeTerminal` class;
  - `SubmitToLab`, the lab view's wiring of a terminal to a runner.
- `library.dfy` holds the library entries and the search filter.

Facts the proofs bring out about the source:

- **Terminal and lab disagree.**
  - The terminal answers `ls -la` with a listing, but the permissions lab does not count it.
  - The terminal answers `PING 1.1.1.1` with its fallback, but the network lab counts it.
  - The terminal acknowledges `chown alice`, but the lab wants an owner and a target.
- **The checklist misses the permissions lab.** The tasks begin with "Run", "Change" and "Use", so the three commands that pass the permissions lab strike none of its tasks.
- **The path score is unbounded.** Every scored path ends at a node whose only option returns to the start, so going round again keeps adding points.
- **Search and hyphens.** The library joins title, category and description with no separator. The Wi-Fi description spells its hyphen as U+2011, so `wi-fi` typed with an ASCII hyphen finds nothing.

Where the code and a plain reading of the app's behaviour differ, the model follows the code:

- The command recorded in a lab is the *trimmed* input (`handleSubmit` trims before calling `onCommand`). It is not the raw input.
- The trace check requires only whitespace after the command word. Because the input is trimmed first, that whitespace is always followed by an argument in practice.
- The `ls` check accepts more arguments only as separate words: `ls -l /etc` passes, but `ls -la` does not.
- A node id missing from a flow would crash the view. The lookup `flow.nodes[nodeId]` yields `undefined`, and the render that follows reads `node.title` and `node.options`, which throws. `CurrentNode` returns `None` for that crash, and the proofs show it cannot happen for the shipped flows.
- Picking another lab does not reset the runner. The lab view renders `<LabRunner labId={activeLabId} />` with no `key`, so a click on another lab only changes the `labId` prop. `useMemo` then looks the lab up again, but the history, the completion flag and the result are state cells and are kept. The result banner of the old lab stays on display, and the next evaluation grades the old history against the new lab. `LabRunner.SelectLab` models this, and `SwitchLabKeepsState` works it through for a ping first graded in the network lab and then in the permissions lab. The terminal element likewise stays mounted between the two terminal labs, so its scroll-back survives as well.

## Model

| member | source | states |
|---|---|---|
| Text.Trim | src/App.tsx:253 | the result has no leading or trailing ECMAScript whitespace; it is a slice of the input framed by whitespace on both sides; it is empty exactly when the input is all whitespace |
| Text.TrimUnique | src/App.tsx:253 | any slice framed by whitespace and not padded by it is the trimmed string, so `Trim` is pinned down completely |
| Text.TrimIdempotent | src/App.tsx:253 | trimming twice is trimming once |
| Text.SpanFrom | src/App.tsx:187-189 | the run of a character class starting at `i` is all in the class and cannot be extended (greedy `\s+`, `\w+`, `[a-z0-9.-]+`) |
| Text.SpanFromExact | src/App.tsx:187-189 | a run that stops at the end or before a character outside the class is exactly the greedy run |
| Text.SpanFromLower | src/App.tsx:187-189 | ASCII lower-casing does not move the end of any class run |
| Text.LiteralAtLower | src/App.tsx:187-189 | a case-insensitive literal matches a string exactly when it matches the string's lower-cased form |
| Text.Lower | src/App.tsx:440 | `toLowerCase` on ASCII: the length is kept, no upper-case ASCII letter is left, and every other character is unchanged |
| Text.Contains | src/App.tsx:440 | `includes`: a match implies the needle is no longer than the haystack; a prefix and the empty needle are always contained |
| Text.NotContainsChar | src/App.tsx:393 | a needle holding a character absent from the haystack is not a substring of it |
| Text.ContainsPrefix | src/App.tsx:440 | a haystack containing `a + b` contains `a` |
| Commands.Matches | src/App.tsx:187-212 | every pattern other than an exact string needs whitespace somewhere in the command, the separator after the command word |
| Commands.AfterCommand | src/App.tsx:187-189 | the command word matches at the start and is followed by whitespace exactly when the result is present; the result is the end of that whitespace run |
| Commands.AfterCommandLongest | src/App.tsx:187-189 | any whitespace run after the command word ends at or before the greedy one; if it stops at a non-space, it ends exactly there |
| Commands.DomainFrom | src/App.tsx:188 | true exactly when a dot followed by two ASCII letters lies inside the host-character run |
| Commands.PingToDenotes | src/App.tsx:187 | the matcher agrees with `ping`, whitespace, then one of the listed addresses, for every command |
| Commands.PingDomainDenotes | src/App.tsx:188 | the matcher agrees with `ping`, whitespace, host characters, a dot and at least two letters, for every command, with backtracking over where the suffix starts |
| Commands.CommandWordDenotes | src/App.tsx:189 | the matcher agrees with one of the words followed by whitespace |
| Commands.ListLongDenotes | src/App.tsx:210 | the matcher agrees with `ls`, whitespace and `-l`, followed by whitespace or the end when the lab requires it |
| Commands.ChmodDigitsDenotes | src/App.tsx:211 | the matcher agrees with `chmod`, whitespace, three digits and a word boundary |
| Commands.ChownOwnerDenotes | src/App.tsx:212 | the greedy owner/group matcher agrees with every backtracking choice of `chown\s+\w+(:\w+)?\s+\S+` |
| Commands.MatchesDenotes | src/App.tsx:187-189 | for every well-formed pattern and every command, the matcher accepts exactly the strings the pattern describes |
| Commands.MatchesLower | src/App.tsx:187-189 | every pattern with the `i` flag gives the same answer on a command and on its ASCII lower-casing |
| Labs.FindLab | src/App.tsx:334 | nothing is returned exactly when no lab has the id; otherwise the result is the first lab with that id |
| Labs.AnyMatches | src/App.tsx:187-189 | `history.some(test)`: true exactly when some command of the history matches |
| Labs.CountTrue | src/App.tsx:190 | `filter(Boolean).length` is at most the length, and equals it exactly when every entry is true |
| Labs.CountTrueIsCardinality | src/App.tsx:190 | the count equals the number of indices holding true |
| Labs.Evaluator | src/App.tsx:186-191 | for a lab with checks: the score is at most the number of checks; `passed` holds exactly when every check is met by some command, and exactly when the score is full; a fixed evaluator returns its constant |
| Labs.ScoreCountsSatisfiedChecks | src/App.tsx:209-214 | the score is the number of checks that some command satisfies |
| Labs.EvaluateMonotone | src/App.tsx:186-191 | a history containing every command of another scores at least as much, and passes if the other passes |
| Labs.EvaluateAppend | src/App.tsx:339 | appending a command never lowers the score and never undoes a pass |
| Labs.EvaluateSameCommands | src/App.tsx:186-191 | histories with the same set of commands grade the same, so order and repetition do not matter |
| Labs.NetBasicsFormula | src/App.tsx:186-191 | the network lab's result is the conjunction of its three checks, and its score is their sum as 0/1 |
| Labs.LinuxPermsFormula | src/App.tsx:209-214 | the permissions lab's result is the conjunction of its three checks, and its score is their sum as 0/1 |
| Labs.WinStartupConstant | src/App.tsx:224 | the guided lab returns passed with score 3 for every history, including the empty one |
| Labs.NetScenarioAllThree | src/App.tsx:186-191 | `ping 1.1.1.1`, `ping example.com`, `tracert example.com` give passed with score 3 |
| Labs.NetScenarioAddressOnly | src/App.tsx:186-191 | `ping 1.1.1.1` alone gives not passed with score 1; the address is not a domain |
| Labs.PermsScenarioAllThree | src/App.tsx:209-214 | `ls -l`, `chmod 644 notes.txt`, `chown alice:dev notes.txt` give passed with score 3 |
| Labs.PermsScenarioAnyDigits | src/App.tsx:211 | `chmod 999 x` alone gives not passed with score 1; the digits are not checked to be octal |
| Labs.ListLongNeedsFlagEnd | src/App.tsx:210 | `ls -la` fails the `ls` check and `ls -l /etc` passes it |
| Labs.ChmodNeedsBoundary | src/App.tsx:211 | `chmod 6444 f` fails the `chmod` check and `chmod 644.bak` passes it |
| Labs.PermsChecksKeepCase | src/App.tsx:210-212 | upper-case `LS -l`, `CHMOD 644 f` and `CHOWN alice f` fail the case-sensitive checks |
| Labs.NetBasicsIgnoresCase | src/App.tsx:187-189 | the network lab grades a history exactly as it grades the lower-cased history |
| Labs.FirstWord | src/App.tsx:393 | `split(" ")[0]` is the prefix that contains no space and stops at the first space or the end |
| Labs.TaskTouchedAppend | src/App.tsx:393 | a struck-through task stays struck through as commands are added |
| Labs.NetChecklistAfterPing | src/App.tsx:393 | after `ping 1.1.1.1` both ping tasks are struck and the traceroute task is not |
| Labs.PermsChecklistMissesPassingRun | src/App.tsx:204-213 | the history that passes the permissions lab strikes none of its three tasks |
| Labs.TaskTouched | src/App.tsx:393 | a task can be struck only once something is in the history, and a task whose text starts with a space (empty first word) is struck by any command |
| Labs.BadgeKey | src/App.tsx:344 | the key is `lab:`, then the id, then `:badges`, and is 11 characters longer than the id |
| Labs.LabChecksWellFormed | src/App.tsx:186-214 | every check of the network and permissions labs is a well-formed pattern |
| Labs.LabDefsChecksWellFormed | src/App.tsx:186-224 | every lab graded by checks uses well-formed patterns |
| Labs.GradesByLanguage | src/App.tsx:186-214 | a shipped lab passes a history exactly when each of its checks has some command in the check's regular language |
| Labs.BadgeKeyInjective | src/App.tsx:344 | the lab id can be read back from `lab:<id>:badges`, so distinct labs use distinct keys |
| Labs.LabRunner.constructor | src/App.tsx:334-337 | the runner holds the lab found by id, an empty history, not completed and no result |
| Labs.LabRunner.OnCommand | src/App.tsx:339 | the history gains the command at its end; nothing else changes |
| Labs.LabRunner.Evaluate | src/App.tsx:340-346 | the result is the evaluator applied to the history; the lab is marked completed; the badge for `lab:<id>:badges` carries the given time and the score; the history is unchanged |
| Labs.LabRunner.SelectLab | src/App.tsx:334-337 | a new `labId` for the mounted runner: the lab becomes the one found by the new id; the history, the completion flag and the result are unchanged |
| Labs.FindNetBasics | src/App.tsx:334 | the id `net-basics` finds the network lab |
| Labs.FindLinuxPerms | src/App.tsx:334 | the id `linux-perms` finds the permissions lab |
| Labs.PingScoresNothingInPerms | src/App.tsx:209-214 | `ping 1.1.1.1` alone gives not passed with score 0 in the permissions lab |
| Labs.SwitchLabKeepsState | src/App.tsx:552-559 | grading `ping 1.1.1.1` in the network lab and then picking the permissions lab leaves the old result (not passed, score 1) on display, and the next evaluation grades the same ping against the permissions checks (not passed, score 0) |
| Flows.FlowTitlesAreTheKeys | src/App.tsx:49-164 | the two titles are distinct and are exactly the keys of the flow table |
| Flows.WifiDropsWellFormed | src/App.tsx:50-114 | in the Wi-Fi flow, the start node exists, every option leads to a node of the flow, every node is keyed by its id, and every node offers an option |
| Flows.LinuxDiskWellFormed | src/App.tsx:115-163 | the same closure, keying and no-dead-end facts for the disk flow |
| Flows.FlowDefsWellFormed | src/App.tsx:49-164 | every shipped flow is closed, keyed by id and free of dead ends |
| Flows.CorrectCount | src/App.tsx:306 | the number of correct choices is at most the number of choices |
| Flows.RunScore | src/App.tsx:305-308 | a sequence of clicks ends where its last option leads, and adds exactly one point per correct option to the score |
| Flows.RunScoreMonotone | src/App.tsx:306 | the score never decreases and grows by at most one per click |
| Flows.PathStaysInFlow | src/App.tsx:303-307 | in a closed flow, clicking offered options always leads to a node of the flow |
| Flows.PathConcat | src/App.tsx:305-308 | two walks joined end to end form a walk that ends where the second one ends |
| Flows.CorrectCountConcat | src/App.tsx:305-306 | the points of two walks joined end to end add up |
| Flows.RepeatCycle | src/App.tsx:305-308 | going round a cycle `n` times returns to its start with `n` times the cycle's score |
| Flows.WifiCycleIsLoop | src/App.tsx:62-113 | start, router, resolved and back to start is a walk of the Wi-Fi flow worth one point |
| Flows.DiskCycleIsLoop | src/App.tsx:124-159 | start, df, drill, resolved and back to start is a walk of the disk flow worth three points |
| Flows.ScoreUnbounded | src/App.tsx:106-159 | in both flows, for every `n` some walk from the start back to the start reaches a score of at least `n` |
| Flows.Step | src/App.tsx:305-308 | the new node is the option's target, and the score rises by one exactly when the option is correct, and otherwise stays |
| Flows.Troubleshooter.constructor | src/App.tsx:300-302 | the troubleshooter starts on the flow's start node with score 0 and satisfies its invariant |
| Flows.Troubleshooter.CurrentNode | src/App.tsx:303 | under the invariant, the node on display exists, carries the current id and offers options |
| Flows.Troubleshooter.Choose | src/App.tsx:305-308 | the new node is the option's target; the score rises by one exactly for a correct option; choosing an offered option keeps the invariant that the node is in the flow and the score counts the correct clicks so far |
| Terminal.Accept | src/App.tsx:253-254 | nothing is accepted exactly when the input is all whitespace; otherwise a non-empty, unpadded slice of the input framed by whitespace |
| Terminal.AcceptIdempotent | src/App.tsx:253 | an accepted command is accepted again unchanged |
| Terminal.SimulateOutput | src/App.tsx:261-273 | the reply is always one of the nine canned replies or the fallback |
| Terminal.RulesWellFormed | src/App.tsx:263-271 | every pattern of the reply chain is well-formed |
| Terminal.FirstRule | src/App.tsx:261-273 | the index returned is of a matching rule with no earlier rule matching; none is returned exactly when no rule matches |
| Terminal.SimulateOutputIsFirstRule | src/App.tsx:261-273 | the if-chain answers with the reply of the first matching rule of the table, and with the fallback when none matches |
| Terminal.ListingIgnoresFlagEnd | src/App.tsx:268 | `ls -la` gets the listing, yet fails the lab's `ls` check |
| Terminal.UpperCasePingFallsThrough | src/App.tsx:263 | `PING 1.1.1.1` gets the fallback, yet passes the network lab's address check |
| Terminal.HelpIsExact | src/App.tsx:271 | `help` gets the help text and `Help` gets the fallback |
| Terminal.ChownWithoutTarget | src/App.tsx:270 | `chown alice` is acknowledged, yet fails the lab's `chown` check |
| Terminal.FakeTerminal.constructor | src/App.tsx:246-248 | the input starts empty and the scroll-back holds the banner only when it is non-empty |
| Terminal.FakeTerminal.Type | src/App.tsx:286 | the input box holds the new value; the scroll-back is unchanged |
| Terminal.FakeTerminal.Submit | src/App.tsx:251-259 | a blank line changes nothing and is not sent; otherwise the echo `<prompt> <cmd>` and the reply are appended, the input is cleared, and the trimmed command is sent |
| Terminal.TrimmedEntry | src/App.tsx:253 | a recorded command is its own trimmed form |
| Terminal.LabTerminal | src/App.tsx:372 | the lab view's terminal has the default prompt and shows the lab banner |
| Terminal.SubmitToLab | src/App.tsx:251-259 | the runner's history gains exactly the accepted command; the result on display is untouched; recorded commands stay trimmed and non-empty; the score of the history never drops |
| Library.ProblemsListFlows | src/App.tsx:431-436 | the library has one entry per flow, in declaration order, each carrying that flow's id, title, category and description |
| Library.SearchText | src/App.tsx:440 | the search text is as long as title, category and description together and has no upper-case ASCII letter |
| Library.Hit | src/App.tsx:440 | a hit needs a query no longer than the search text, and the empty query hits every entry |
| Library.Filter | src/App.tsx:440 | an entry is kept exactly when its search text contains the query, ASCII case ignored; the list never grows |
| Library.FilterConcat | src/App.tsx:440 | filtering works entry by entry and keeps the list's order |
| Library.FilterEmptyQuery | src/App.tsx:439-440 | the empty query, the box's initial state, keeps every entry |
| Library.FilterIgnoresCase | src/App.tsx:440 | a query and its lower-cased form keep the same entries |
| Library.FilterNarrows | src/App.tsx:440 | an entry kept for a longer query is kept for every prefix of it |
| Library.SearchLinux | src/App.tsx:440 | `Linux` keeps only the disk flow |
| Library.SearchAcrossFields | src/App.tsx:440 | `windowsnetworking` hits the Wi-Fi flow, straddling its title and its category |
| Library.AsciiHyphenFindsNothing | src/App.tsx:53 | `wi-fi` with an ASCII hyphen keeps no entry |
| Library.SearchPlaceholderExample | src/App.tsx:445 | the box's own example `Wi‑Fi` (with U+2011) keeps only the Wi-Fi flow |

## Left out

- Rendering is not modelled: JSX, icons, styling, the scroll-to-bottom `setTimeout`, `useMemo`/`useRef`, and app navigation between tabs. They display state and do not change it.
- The browser is not modelled: `localStorage`, `JSON.stringify`/`JSON.parse` and the `store.get` fallback. `LabRunner.Evaluate` returns the key and badge it would store, and the badge-listing view that reads them back is not part of this model.
- The clock is a parameter: `new Date().toISOString()` is the `now` argument of `LabRunner.Evaluate`.
- Text.Lower: lower-cases ASCII letters only. JavaScript's `toLowerCase`, used by the checklist and the search box, also maps non-ASCII letters. All regex matching is exact, however: non-unicode `/i` folds only ASCII letters for these patterns.
- JavaScript strings are UTF-16 code units, while Dafny strings are Unicode scalar values. This differs only for characters outside the Basic Multilingual Plane, which none of the texts contains.
- The full regular-expression engine is not modelled. Each of the app's patterns is modelled on its own, as a matcher and a declarative description.
- Labs.LabRunner.constructor: requires that the lab id exists. The `!` after `find` is only a type assertion with no run-time effect; an unknown id would crash the render when it reads `lab.title`. `SelectLab` has the same precondition for the same reason.
- The home-page preview terminal, whose `onCommand` does nothing, is covered by `FakeTerminal` alone.
- vite.config.ts (build configuration) is not part of this model.
