# Workshop-fetch download pipeline, in Dafny

This project models the core of `main.py` in Workshop-fetch. That program is a console tool that downloads Steam Workshop items through `steamcmd` and copies them into a local `downloads` folder. The model covers:

- **Item extraction.** `get_app_and_item_ids` turns a workshop page into `WorkshopItemInfo` records. The HTTP fetch and the regular-expression engine are abstracted: a page is its list of id matches plus what the title and app-name extractors find.
- **Batch building.** `decoded_download_urls` turns a list of URLs into one ordered batch.
- **Argument construction.** `run_steamcmd` builds the tool's argument vector. The credential gate applied at start-up decides the login argument.
- **The read loop.** `download` reads the tool's standard output line by line, modelled as a state machine over a script of `(line, exited)` steps.
- **Deployment.** `deploy_downloaded_item` and `deploy_all` work over a filesystem modelled as the set of existing paths.
- **Command handling.** `proc_input` handles bare-URL lines, the dispatch table and quitting. `excute_run_arguments` splits the command-line arguments at `*`.
- **Console helpers.** Indentation in `push_text`, and the border arithmetic of `header`.

Layout:

| file | module | what it holds |
|---|---|---|
| `wrappers.dfy` | `Wrappers` | `Option` and `Outcome` |
| `text.dfy` | `Text` | Python string operations the program relies on, with their semantics written out |
| `workshop.dfy` | `Workshop` | items, pages, extraction, the batch, and the batch-building loop |
| `steamcmd.dfy` | `SteamCmd` | the credential gate, the argument vector and its loop, and the read loop |
| `deploy.dfy` | `Deploy` | the path-set filesystem, item deployment and batch deployment |
| `commands.dfy` | `Commands` | the dispatch of a tokenized line and the `*` splitting |
| `console.dfy` | `Console` | `push_text` rendering and `header` |
| `pipeline.dfy` | `Pipeline` | the `Shell` class and the functions over `PState` that specify its methods |

The `Shell` class holds four fields:

- `running`: the `DownloadLock` busy flag;
- `output`: the texts pushed to the console;
- `fs`: the existing paths;
- `launches`: every argument vector the tool was started with.

Each of its methods is proved equal to a function over the `PState` value (`DownloadSpec`, `ActSpec`, `ProcSpec`, `RunAll`), and the lemmas are stated about those functions.

The model keeps these inputs as parameters:

- `net: string -> Fetch` stands for the network: what fetching each URL returns.
- `runs: nat -> ToolRun` stands for the tool's n-th launch: the lines it prints, whether it has exited after each one, and the paths it writes under the content folder.
- `toArgs: string -> seq<string>` stands for the `glassy.utils.to_args` tokenizer.
- `exe` is the path `ensure_steam_cmd` returns.

The model keeps these details of the code:

- `strip('"')` removes every leading and trailing quote, not a single layer (`Text.Strip`).
- The banner test is a prefix test (`SteamCmd.Classify`).
- The app folder is created before the source check (`Deploy.DeployItem`).
- All items of one page carry that page's single title (`Workshop.PageItemsShareName`).

## Model

| member | source | states |
|---|---|---|
| Text.FindFrom | main.py:247 | the result is an occurrence at or after `from`, and no earlier one exists; `None` means there is no occurrence from `from` on |
| Text.Find | main.py:247 | the result is the first occurrence of the literal pattern, or `None` when there is none |
| Text.TrimStart | main.py:227 | the result is a suffix; every dropped character is in the set; the result does not start with one |
| Text.TrimEnd | main.py:227 | the result is a prefix; every dropped character is in the set; the result does not end with one |
| Text.Strip | main.py:323 | the result neither starts nor ends with a stripped character, and it is a contiguous part of the input with only stripped characters around it |
| Text.Join | main.py:331 | joining no parts gives the empty string; joining one part gives that part |
| Text.JoinSnoc | main.py:331 | appending a part to a non-empty join puts exactly one separator before it |
| Text.NatToString | main.py:202 | `str(n)` is a non-empty digit string with no leading zero |
| Text.ParseNatToString | main.py:202 | reading back the decimal form of `n` gives `n` |
| Text.StripQuotesOfQuote | main.py:227 | stripping quotes from a word wrapped in quotes gives the word back, when the word has no quote at either end |
| Workshop.MatchItem | main.py:145 | the record built from one match has `appid = int(group 3)`, `itemid = int(group 2)`, the app's anchor text and the page title |
| Workshop.ItemsOf | main.py:143-145 | the matches of a page give one item per match |
| Workshop.ItemsOfAt | main.py:143-145 | the k-th item is built from the k-th match, so document order is kept |
| Workshop.Present | main.py:192 | an item is kept exactly when it occurs, present, in the list, and the filtered list is never longer |
| Workshop.PresentAppend | main.py:192 | filtering a concatenation gives the concatenation of the filtered parts, so kept items stay in order with their multiplicity |
| Workshop.PresentOne | main.py:192 | one entry is kept exactly when it is present, as its item |
| Workshop.Wrap | main.py:192 | a batch wrapped as optional items has every position present |
| Workshop.PresentWrap | main.py:192 | filtering a wrapped batch gives the batch back |
| Workshop.ExtractShape | main.py:133-147 | a failed fetch yields nothing and the three-line report; a page with no match yields nothing and one diagnostic; a page with matches yields one item per match, in order, with the ids parsed from groups 3 and 2, the app's name and the page title, and pushes nothing |
| Workshop.PageItemsShareName | main.py:145 | every item of one page has the same name |
| Workshop.ResolveAppend | main.py:154-156 | resolving two URL lists one after the other gives the concatenation of the items and of the diagnostics |
| Workshop.ResolveSingle | main.py:154-156 | a single URL resolves to its page's extraction, or to nothing when it is empty |
| Workshop.NonEmpty | main.py:155 | a URL is kept exactly when it is in the list and not empty |
| Workshop.ResolveSkipsEmpty | main.py:154-156 | empty strings contribute nothing: resolving a list is resolving its non-empty URLs |
| Workshop.BatchOfBlanks | main.py:149-158 | a non-empty list of empty strings gives an existing, empty batch and no diagnostic |
| Workshop.BatchIsConcatenation | main.py:149-158 | the batch for `[u] + urls` is `u`'s items (none if `u` is empty) followed by those of `urls` |
| Workshop.DecodedDownloadUrls | main.py:149-158 | the loop returns `None` exactly for the empty list, otherwise the batch, and the diagnostics pushed while resolving |
| SteamCmd.CredentialGate | main.py:374-379 | a username or password is kept, unchanged, exactly when it has at least four characters |
| SteamCmd.LoginArgOfSettings | main.py:195-198 | the login argument holds the credentials only when both pass the gate, and is `+login anonymous` otherwise |
| SteamCmd.ParseDownloadArgOf | main.py:202 | a download argument reads back as exactly its item's app id and item id |
| SteamCmd.ArgVectorShape | main.py:194-203 | the vector has the item count plus 3 entries: the executable, the login, one download per item in order naming its ids, and `+quit` last |
| SteamCmd.RequestNotices | main.py:200-201 | one request notice per item, in order |
| SteamCmd.DownloadArgs | main.py:200-202 | one download argument per item, in order |
| SteamCmd.SteamcmdArgs | main.py:190-203 | the loop builds the vector and the notices for the present items |
| SteamCmd.ClassifyMeaning | main.py:247-250 | a line is a redirect line exactly when it contains the marker, and keeps the text before the first occurrence; it is a banner line exactly when it lacks the marker and starts with the banner |
| SteamCmd.Reads | main.py:246 | the loop sees one read per output line |
| SteamCmd.StopIndex | main.py:245-258 | the loop stops at a stopping line, and no earlier line stops it |
| SteamCmd.StopIndexIsFirst | main.py:245-258 | the first stopping line is where the loop stops |
| SteamCmd.TranscriptClosedForm | main.py:245-258 | the loop pushes every non-banner line before the stopping line, in order, and then the stopping line's text: the part before the marker plus a newline, or the line itself |
| SteamCmd.BannerSuppressed | main.py:250-251 | a banner line before the stopping line is never pushed |
| SteamCmd.LoopStep | main.py:245-258 | each kind of line has its effect: a marker line stops the loop with the text before the marker; a banner is skipped without the exit poll; any other line is forwarded and stops the loop exactly when the process has exited |
| SteamCmd.ReadLoop | main.py:245-258 | the loop reads up to and including the stopping line and pushes the transcript |
| Deploy.Copied | main.py:217 | a copied path lies under the destination and comes from the matching path under the source |
| Deploy.DeployItem | main.py:210-217 | the app folder is always made; the copy fails, with the destination, exactly when both source and destination exist; the source tree appears under the destination only when the source exists and the destination does not |
| Deploy.DeployMissingSource | main.py:211-216 | with no source folder, only the app folder is added |
| Deploy.DeployCopiesTree | main.py:213-217 | a successful copy puts at the destination exactly the tree found at the source |
| Deploy.DeployAllGrows | main.py:219-223 | deploying never removes a path |
| Deploy.DeployAllAppend | main.py:219-223 | deploying a list is deploying its first part, then the rest unless a copy failed |
| Deploy.DeployAllSkipsAbsent | main.py:220-222 | `None` entries are skipped: deploying is deploying the present items in order |
| Deploy.DeployAllMakesAppDirs | main.py:210-223 | after a batch deploys without error, every present item's app folder exists |
| Deploy.MakeDirKeepsPrefixClosed | main.py:212 | making a folder whose parent exists keeps every path's parents in place |
| Deploy.CopyKeepsPrefixClosed | main.py:217 | copying a tree to a fresh folder whose parent exists keeps every path's parents in place |
| Deploy.DeployKeepsPrefixClosed | main.py:210-217 | deploying an item keeps every path's parents in place when the downloads folder exists |
| Deploy.DeployAllKeepsPrefixClosed | main.py:219-223 | deploying a batch keeps every path's parents in place when the downloads folder exists |
| Commands.Slice | main.py:326-327 | Python's clamped slice: its length, and each character taken from the matching position |
| Commands.IsBareUrlMeaning | main.py:326-328 | a command is a bare URL exactly when it has at least seven characters and starts with `https:/` or `http://` |
| Commands.Quoted | main.py:331 | every token is wrapped in double quotes, in order |
| Commands.DispatchCases | main.py:320-344 | no tokens does nothing; a bare URL is re-dispatched as the quoted `sub` line; `download`, `sub` and `subscribe` download the remaining tokens; `quit`, `q` and `exit` quit; anything else is reported, stripped, as an unknown command |
| Commands.SubLineSpaced | main.py:331 | the re-dispatched line is `sub` followed, for every token in order, by one space and the token in double quotes (stated against `Spaced`, a per-token definition independent of `Join`) |
| Commands.JoinQuotedSpaced | main.py:331 | one space followed by the quoted tokens joined with single spaces is every token quoted with a space before it |
| Commands.Groups | main.py:348-353 | splitting always gives at least one group |
| Commands.GroupsCount | main.py:348-352 | there is one group more than there are `*` arguments |
| Commands.GroupsHaveNoStar | main.py:350-352 | no group contains `*` |
| Commands.GroupsRejoin | main.py:348-353 | joining the groups back with `*` gives the arguments |
| Commands.RunLines | main.py:355-358 | there are never more lines than groups |
| Commands.RunLinesAppend | main.py:355-358 | the lines for a concatenation of groups are the lines of the first groups followed by those of the rest, so group order is kept |
| Commands.RunLinesOne | main.py:355-358 | one group gives no line when empty, and its quoted words joined by spaces otherwise |
| Commands.GroupsOfStars | main.py:348-352 | an argument list made only of `*` gives only empty groups |
| Commands.RunLinesOfEmpty | main.py:355-357 | empty groups are skipped |
| Commands.RunLinesMembers | main.py:355-358 | a line is run exactly when it is the space-joined quoted words of some non-empty group |
| Commands.SplitRunArguments | main.py:348-353 | the first loop builds exactly the groups, with every word quoted |
| Console.Indent | main.py:94 | indenting never shortens text |
| Console.RenderedShape | main.py:94 | the printed text starts with two spaces, ends with the line end `print` adds, and is three characters plus two per line break longer than the text |
| Console.UnindentIndent | main.py:94 | the indentation loses nothing: removing it gives the text back |
| Console.IndentLength | main.py:94 | each line break gains exactly two characters |
| Console.IndentBreaks | main.py:94 | in indented text every line break is followed by two spaces |
| Console.RepeatLength | main.py:100-101 | `s * n` has `n` times the length of `s`, or none when `n` is not positive |
| Console.Header | main.py:96-103 | three lines are pushed, the first and last being the same border |
| Console.HeaderBorderWidth | main.py:97-101 | the border is strictly longer than the text plus margin, by at most one tile |
| Console.HeaderCentred | main.py:98-102 | with an even margin, the padded text is as wide as the border or one character narrower |
| Pipeline.Configure | main.py:374-379 | the kept credentials are exactly those the gate passes, each unchanged; the content folder is `steamapps/workshop/content` under the Steam folder; items are deployed under `downloads`; the tool path is the one given |
| Pipeline.StripAll | main.py:227 | every URL has its outer quotes stripped, in order |
| Pipeline.DownloadSpec | main.py:225-259 | a download leaves the busy flag as it found it and only adds output |
| Pipeline.DownloadFrame | main.py:225-259 | a download loses no path and no earlier launch, and launches the tool at most once |
| Pipeline.DownloadLaunch | main.py:229-243 | while busy, nothing changes; otherwise the tool is launched exactly when the batch holds an item, once, with the vector built from that batch |
| Pipeline.DownloadOutput | main.py:225-259 | with the flag clear: an empty list changes nothing; a list yielding no item adds the diagnostics and the no-urls notice; otherwise the output gains the diagnostics, the start notice with the item count, one request notice per item and the read loop's texts through the stopping line, the flag is clear, no path is lost, and after a successful deployment every item's app folder exists |
| Pipeline.PageToArguments | main.py:225-259 | for one URL whose page has matches there is one launch, and its download arguments name, in document order, the ids read from each match |
| Pipeline.PageVector | main.py:190-203 | the vector for one page's items has one download argument per match, naming its ids |
| Pipeline.SingleBatch | main.py:149-158 | a single URL's batch is what its page yields |
| Pipeline.DownloadIgnoresQuotes | main.py:227 | URLs wrapped in double quotes download exactly like the bare URLs |
| Pipeline.StripQuotesOfUnquoted | main.py:227 | a URL with no quote at either end is left alone |
| Pipeline.ActSpec | main.py:336-344 | acting keeps the busy flag and only adds output; anything but a download leaves the files and the launches alone (the effect of each action is stated by `ProcEmpty`, `ProcQuit`, `ProcUnknown` and `ProcDownload`) |
| Pipeline.ProcEmpty | main.py:318-321 | a line with no token settles and changes nothing |
| Pipeline.ProcQuit | main.py:338-342 | a line whose stripped first token is `quit`, `q` or `exit` settles and ends the shell with the state unchanged |
| Pipeline.ProcUnknown | main.py:323-344 | any other command word that is not a URL pushes exactly `Unknown command: '<word>'`, with the word stripped, and carries on |
| Pipeline.ProcDownload | main.py:336-340 | `download`, `sub` and `subscribe` download the remaining tokens: the new state is the download's, the line crashes exactly when a copy fails, naming the same destination, and carries on otherwise |
| Pipeline.Settled | main.py:330-332 | after at most one re-dispatch the action is not a re-dispatch |
| Pipeline.SettledRedispatch | main.py:330-332 | a bare-URL line settles to what its `sub` line settles to |
| Pipeline.RunAll | main.py:355-358 | running lines keeps the busy flag and only adds output |
| Pipeline.RunAllQuit | main.py:355-358 | a quitting line ends the run with the state unchanged, whatever lines follow it |
| Pipeline.RunAllAppend | main.py:355-358 | running two lists of lines one after the other runs the first, then the second from where it left off unless a line of the first quit or crashed |
| Pipeline.RunArgsOfStars | main.py:347-358 | arguments made only of `*` run nothing and change nothing |
| Pipeline.Shell.constructor | main.py:23-27 | at start the flag is clear and the downloads folder exists |
| Pipeline.Shell.PushText | main.py:93-94 | the text is appended to the console output, and nothing else changes |
| Pipeline.Shell.Acquire | main.py:65-68 | entering the lock sets the flag, and nothing else changes |
| Pipeline.Shell.Release | main.py:70-72 | leaving the lock clears the flag, and nothing else changes |
| Pipeline.Shell.Launch | main.py:243 | the launch is recorded and the tool's output script is returned |
| Pipeline.Shell.DeployItemStep | main.py:210-217 | the method does what `DeployItem` specifies |
| Pipeline.Shell.DeployAllItems | main.py:219-223 | the loop does what `DeployAll` specifies, stopping at the first failed copy |
| Pipeline.Shell.Download | main.py:225-259 | the method's new state and outcome are those `DownloadSpec` gives |
| Pipeline.Shell.Act | main.py:338-344 | the method's new state and status are those `ActSpec` gives |
| Pipeline.Shell.ProcInput | main.py:317-344 | the method, including its re-dispatch, gives what `ProcSpec` gives |
| Pipeline.Shell.ExecuteRunArguments | main.py:347-358 | the method runs the lines of the non-empty groups in order, stopping at a quit or a crash, as `RunAll` specifies |

### Definitions

Each source function is modelled by the definition named here. The rows above state its properties.

- `get_app_and_item_ids` (main.py:133-147): `Workshop.Extract`, characterised by `ExtractShape`, `ItemsOfAt` and `PageItemsShareName`.
- The loop of `decoded_download_urls` (main.py:149-158): `Workshop.Resolve` and `Workshop.Batch`, characterised by `ResolveAppend`, `ResolveSingle`, `ResolveSkipsEmpty`, `BatchOfBlanks` and `BatchIsConcatenation`; the loop itself is `Workshop.DecodedDownloadUrls`.
- The argument construction of `run_steamcmd` (main.py:194-203): `SteamCmd.LoginArg` and `SteamCmd.ArgVector`, characterised by `LoginArgOfSettings`, `ArgVectorShape` and `ParseDownloadArgOf`; the loop itself is `SteamCmd.SteamcmdArgs`.
- The read loop of `download` (main.py:245-258): `SteamCmd.Classify` for one line, `SteamCmd.Transcript` for what the loop pushes and `SteamCmd.Forwarded` for the lines before the stop, characterised by `ClassifyMeaning`, `TranscriptClosedForm`, `BannerSuppressed` and `LoopStep`; the loop itself is `SteamCmd.ReadLoop`.
- `deploy_downloaded_item` (main.py:210-217): `Deploy.DeployItem`. `deploy_all` (main.py:219-223): `Deploy.DeployAll`, characterised by `DeployAllGrows`, `DeployAllAppend`, `DeployAllSkipsAbsent`, `DeployAllMakesAppDirs` and `DeployAllKeepsPrefixClosed`.
- `download` (main.py:225-259): `Pipeline.DownloadSpec`, characterised by `DownloadOutput`, `DownloadFrame`, `DownloadLaunch` and `PageToArguments`; the method is `Pipeline.Shell.Download`.
- The tokenized dispatch of `proc_input` (main.py:320-344): `Commands.Dispatch`, with the re-dispatched line `Commands.SubLine`, characterised by `DispatchCases` and `SubLineSpaced`.
- `proc_input` (main.py:317-344): `Pipeline.ProcSpec`, characterised by `ProcEmpty`, `ProcQuit`, `ProcUnknown`, `ProcDownload` and `SettledRedispatch`; the method is `Pipeline.Shell.ProcInput`.
- `excute_run_arguments` (main.py:347-358): `Pipeline.RunArgsSpec`, which is `Pipeline.RunAll` over `Commands.RunLines(Commands.Groups(args))`, characterised by `RunAllAppend`, `RunAllQuit`, `RunArgsOfStars` and the `Groups` and `RunLines` lemmas; the method is `Pipeline.Shell.ExecuteRunArguments`.
- `push_text` (main.py:93-94): `Console.Rendered` and `Pipeline.Shell.PushText`. `header` (main.py:96-103): `Console.Header`.

## Left out

- HTTP fetching and `download_chunks` (main.py:119-131) are network I/O. Each fetch is the value `net(url)`.
- The regular-expression engine and its `@cache` memoisation (main.py:46-60) are left out. A page is given as its list of id matches, its title and a map from app id text to app name. `\d` is taken to match ASCII digits only.
- `Resolvable`: a page with matches but no title, or with no anchor for a match's app, makes the source index `None` and crash. The model makes this a precondition rather than an outcome.
- `ensure_steam_cmd` (main.py:166-188) depends on file checks, interactive confirmation, a zip download and `quit()`. Its result is the `exe` parameter.
- `subprocess.Popen` and `poll` (main.py:207-208, 254) are abstracted as the `ToolRun` script. A tool that never prints a stopping line would hang the source. The model requires the script to reach such a line (`RunEnds`).
- The files the tool writes appear in the model at the moment it is launched, not while it runs.
- `shutil.copytree` and `mkdir` copy nothing byte-wise here. A copy is the image of the source subtree.
- Missing parents, paths that exist as files, and permission errors are not distinguished.
- An app name or title containing a path separator is treated as one path component.
- `steamapps\workshop\content` (main.py:63) is modelled as three components, as on Windows.
- `load_settings` (main.py:262-314) is JSON file I/O and is left out. The credential gate at main.py:374-379 takes the username and password as inputs.
- The interactive parts are left out: `request_confirmation` (main.py:106-115), the REPL in `main` (main.py:360-395), and the coloured banner output.
- `Console.Rendered` is the text `push_text` prints. The pipeline records the pushed texts themselves.
- `modpath`, `get_mods_folder_for_app`, `get_credits` and `to_local_path` are not used by the core.
- `glassy.utils.to_args` is not available, so the tokenizer is the parameter `toArgs`.
- `Settles`: a bare-URL line's `sub` line is assumed not to tokenize to a bare URL again. Without that, the source would recurse until Python's recursion limit.
- `WellBehaved`: `ProcInput` and `ExecuteRunArguments` require every page to be `Resolvable` and every launch to end (`WellBehaved`).
- `Console.Header`: an empty border pattern makes the source divide by zero. The model requires a non-empty pattern.
- `Pipeline.DownloadSpec`: its own contract states only the flag and output frame. `DownloadOutput` states what a download pushes and leaves in `fs`, and `DownloadFrame`, `DownloadLaunch` and `PageToArguments` state what it launches. The exact set of paths after a deployment is given by `DownloadSpec`'s definition in terms of `Deploy.DeployAll`, whose properties are proved in `Deploy`.
- No exception raised inside the lock is modelled. The only modelled exception is the failed copy (`Crash`), and that copy happens after the lock is released, so the flag is always clear afterwards.
