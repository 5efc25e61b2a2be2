# gopls session routing and option application, in Dafny

This project models two parts of the Go language server (gopls, in the
`internal/lsp` tree of the Go tools repository).

The **session view registry** (`internal/lsp/cache/session.go`). A session
holds an ordered list of views, one per workspace folder, and a memo that maps
a file URI to the view serving it. It also holds the set of files open in the
editor (with an overlay). The session routes a URI to the view whose folder is the
longest string prefix of the URI. It memoises that choice and clears the memo
whenever the view list changes. Views are appended, dropped, swap-removed,
substituted in place and shut down. The `Cache` module (`session.dfy`) models
the session as a class. Its fields are `views`, `viewMap`, `overlays` and the
view counter. Its methods follow the Go loops. The `SessionLemmas` module
(`session_lemmas.dfy`) proves the following about routing:
- The routing rule determines the view.
- `viewsOf` keeps registration order.
- The routed view is among the matching views.
- The raw prefix test and the tie rule behave as shown on concrete folders.

**Option application** (`internal/lsp/source/options.go`). `SetOptions` walks a
decoded JSON configuration object. For each entry, `Options.set` type-checks
the value against the option's name and stores it in the `Options` record. It
returns one `OptionResult` per entry. The result's state is handled,
deprecated or unexpected, and it may carry an error. `ForClientCapabilities`
copies what the client declares into the options.

The `Source` module (`options.dfy`) holds:
- The record types: options, completion options and client capabilities.
- The enums: hover kind, option state, insert text format and sync kind.
- The name table `Classify`. It is the `switch name` of `set`.
- The meaning of one entry: `Evaluate` for the result and `Apply`/`Update` for
  the options.
- The methods that do what the Go code does. Each per-option method carries
  its own loop and is proved against `Update` and `Evaluate`. `SetOptions` is
  proved against `UpdateAll` and `Results`.

The `OptionLemmas` module (`option_lemmas.dfy`) proves the following:
- Option names and the options they denote round-trip.
- Each option's effect and error cases.
- Idempotence, and its failure for `env`.
- Order independence of the boolean options over a configuration map.

`GoValues` (`values.dfy`) models the dynamically typed values that a JSON
decoder produces: nil, bool, string, list, map and other. It also models how
`fmt` renders them with `%v` and `%s`. `Wrappers` holds `Option` and
`Result`.

`bestView` skips a view only when the best folder so far is strictly longer
(internal/lsp/cache/session.go:210), so of two equally long matching folders
the later view wins. When no folder matches, it returns the first view
(internal/lsp/cache/session.go:221). See `TieGoesToLaterView` and
`UnmatchedGoesToFirstView`.

## Model

| member | source | states |
|---|---|---|
| Cache.Longest | internal/lsp/cache/session.go:207-216 | the loop's running `longest`: none iff no folder is a prefix of the URI; otherwise a matching folder no matching folder is longer than, with every later match strictly shorter |
| Cache.BestIndex | internal/lsp/cache/session.go:203-222 | the view bestView picks: a matching folder of maximal length, the later one on equal length, and index 0 when nothing matches |
| Cache.Matching | internal/lsp/cache/session.go:178-189 | the views whose folder is a prefix of the URI: only views of the list, only matching ones, and every matching one |
| Cache.IndexOf | internal/lsp/cache/session.go:263-271 | the index dropView finds: -1 iff the view is absent, otherwise the first slot holding it |
| Cache.SwapRemove | internal/lsp/cache/session.go:233-235 | the list after removal: one shorter, the former last element in the freed slot, every other slot unchanged, the removed view gone from a list without duplicates, multiset minus that view |
| Cache.Session.CreateView | internal/lsp/cache/session.go:74-141 | a fresh view with the next id, the given name and folder, not shut down, with the options after the cache's options hook |
| Cache.Session.NewView | internal/lsp/cache/session.go:61-72 | appends a fresh, running view with the next id, the given name and folder after all earlier views, resets the memo to empty and keeps the session invariant |
| Cache.Session.ViewByName | internal/lsp/cache/session.go:144-153 | the first view with that name, or nil exactly when no view has it |
| Cache.Session.BestView | internal/lsp/cache/session.go:203-222 | fails with "no views" exactly when the session has no views, otherwise returns the view BestIndex picks |
| Cache.Session.ViewOf | internal/lsp/cache/session.go:161-176 | a memo hit returns the memoised view and leaves the memo; a miss stores bestView's result under the URI; an error leaves the memo; the result is always the routed view, so the memo stays consistent |
| Cache.Session.ViewsOf | internal/lsp/cache/session.go:178-189 | returns exactly Matching(views, uri), in registration order, changing nothing |
| Cache.Session.Views | internal/lsp/cache/session.go:191-199 | a copy of the view list, element by element |
| Cache.Session.DropView | internal/lsp/cache/session.go:260-272 | always empties the memo; returns the first index of the view, nils that slot and shuts the view down, or returns -1 with "view not found" and leaves the list |
| Cache.Session.RemoveView | internal/lsp/cache/session.go:224-237 | on success the list is SwapRemove of the old list at the view's index and the view is shut down; on failure ("view not found") the list and the view's shutdown flag are unchanged; the invariant is kept |
| Cache.Session.UpdateView | internal/lsp/cache/session.go:239-258 | on success a fresh, running view with the next id for the same name and folder takes the old view's slot, all other slots unchanged, the old view shut down; on failure ("view not found") nothing but the memo changes and the view is not shut down |
| Cache.Session.Shutdown | internal/lsp/cache/session.go:46-55 | every view that was in the session is shut down; no views remain and the memo is nil |
| Cache.Session.IsOpen | internal/lsp/cache/session.go:297-303 | true exactly when the URI has an overlay |
| SessionLemmas.BestIndexUnique | internal/lsp/cache/session.go:203-222 | any index that is maximal, matching and last among equally long matches (or 0 with no match) is the one bestView picks: the rule determines the view |
| SessionLemmas.AppendedViewWinsTies | internal/lsp/cache/session.go:61-72 | a view appended by NewView takes every URI its folder matches unless a strictly longer folder matches too |
| SessionLemmas.MatchingAppend | internal/lsp/cache/session.go:182-187 | viewsOf's filter distributes over concatenation, so registration order is kept |
| SessionLemmas.RoutedIsAmongMatching | internal/lsp/cache/session.go:207-219 | when some folder matches, the view bestView picks is among the views viewsOf reports |
| SessionLemmas.NestedFolderRouting | internal/lsp/cache/session.go:207-216 | with views at /a and /a/b, /a/b/x.go goes to /a/b and /a/y.go to /a |
| SessionLemmas.RawPrefixRouting | internal/lsp/cache/session.go:213 | the prefix test is on raw strings: /a/b takes /a/bc/x.go |
| SessionLemmas.TieGoesToLaterView | internal/lsp/cache/session.go:210 | two views with the same folder: the later one gets the file |
| SessionLemmas.UnmatchedGoesToFirstView | internal/lsp/cache/session.go:217-221 | a file under no folder goes to the first view |
| Source.OptionResult.Errorf | internal/lsp/source/options.go:355-357 | the result records the given error and keeps its name, value, state and replacement |
| Source.OptionResult.AsBool | internal/lsp/source/options.go:359-366 | ok iff the value is a bool, which is then returned and the result unchanged; otherwise false and a type error on an otherwise unchanged result |
| Source.OptionResult.AsString | internal/lsp/source/options.go:368-375 | ok iff the value is a string, which is then returned and the result unchanged; otherwise "" and a type error on an otherwise unchanged result |
| Source.OptionResult.SetBool | internal/lsp/source/options.go:377-381 | a bool value is to be stored and the result is unchanged; any other value stores nothing and the result is the same one with a wrong-type error naming the option, bool and the value |
| Source.ForClientCapabilities | internal/lsp/source/options.go:197-214 | the new options are WithClientCapabilities of the old ones |
| Source.SetEnv | internal/lsp/source/options.go:219-227 | the "env" case: options and result equal Update and Evaluate of the entry |
| Source.SetBuildFlags | internal/lsp/source/options.go:229-239 | the "buildFlags" case: options and result equal Update and Evaluate of the entry |
| Source.SetNoIncrementalSync | internal/lsp/source/options.go:241-244 | the "noIncrementalSync" case: options and result equal Update and Evaluate of the entry |
| Source.SetBoolOption | internal/lsp/source/options.go:245-258 | every name that `setBool`s a field (also 309-313 and 323-327): options and result equal Update and Evaluate |
| Source.SetCompletionBudget | internal/lsp/source/options.go:259-267 | the "completionBudget" case: options and result equal Update and Evaluate of the entry |
| Source.SetHoverKind | internal/lsp/source/options.go:269-288 | the "hoverKind" case: options and result equal Update and Evaluate of the entry |
| Source.SetStringOption | internal/lsp/source/options.go:290-296 | "linkTarget" and "local" (315-321): options and result equal Update and Evaluate |
| Source.SetDisabledAnalyses | internal/lsp/source/options.go:298-307 | the "experimentalDisabledAnalyses" case: options and result equal Update and Evaluate |
| Source.Deprecate | internal/lsp/source/options.go:329-347 | the five deprecated names: options and result equal Update and Evaluate |
| Source.SetUnexpected | internal/lsp/source/options.go:349-350 | any name outside the table: options and result equal Update and Evaluate |
| Source.Set | internal/lsp/source/options.go:216-353 | for every name and value, the new options are Update and the result is Evaluate of the entry |
| Source.SetOptions | internal/lsp/source/options.go:180-195 | the results are Results of the configuration and the options are Applied, entry after entry |
| OptionLemmas.KnownNamesAreClassified | internal/lsp/source/options.go:216-350 | the names `set` dispatches explicitly are exactly those the name switch does not treat as unexpected |
| OptionLemmas.ClassifyRoundTrip | internal/lsp/source/options.go:217-347 | every name the switch recognises is the spelling of the option it selects |
| OptionLemmas.NameOfRoundTrip | internal/lsp/source/options.go:217-347 | every option with a spelling is selected by that spelling |
| OptionLemmas.ClassifyInjective | internal/lsp/source/options.go:217-347 | two different names never select the same option; only unknown names share a classification |
| OptionLemmas.DeprecatedReplacementIsBoolOption | internal/lsp/source/options.go:329-347 | every deprecated name's replacement is empty or the name of a boolean option |
| OptionLemmas.HoverKindRoundTrip | internal/lsp/source/options.go:269-288 | each hover kind's name is accepted and stores that kind |
| OptionLemmas.HoverKindNameRoundTrip | internal/lsp/source/options.go:269-288 | each accepted hover kind name is the name of the kind it stores |
| OptionLemmas.PutGetBool | internal/lsp/source/options.go:245-258 | writing one boolean field sets it and leaves the ten others |
| OptionLemmas.PutBoolTwice | internal/lsp/source/options.go:377-381 | the second write of a boolean field wins |
| OptionLemmas.PutBoolSame | internal/lsp/source/options.go:377-381 | writing back a field's own value changes nothing |
| OptionLemmas.SetOptionsOutcome | internal/lsp/source/options.go:180-195 | nil gives no results and no change; a map gives one result per entry with that entry's name and value; anything else gives one nameless "invalid options type" result and no change |
| OptionLemmas.ResultEchoesEntry | internal/lsp/source/options.go:217 | every result carries the entry's name and value |
| OptionLemmas.RejectedEntryChangesNothing | internal/lsp/source/options.go:216-353 | an entry whose result has an error, or is deprecated or unexpected, leaves the options as they were |
| OptionLemmas.WrongTypeRejected | internal/lsp/source/options.go:216-328 | a current option given a value of the wrong dynamic type records a type error and changes nothing |
| OptionLemmas.DeprecatedState | internal/lsp/source/options.go:329-347 | the state is deprecated iff the name is deprecated, then with the tabled replacement and no error |
| OptionLemmas.UnexpectedState | internal/lsp/source/options.go:349-350 | the state is unexpected iff the name is outside the table, then with no error |
| OptionLemmas.BoolOptionEffect | internal/lsp/source/options.go:245-258 | a bool is stored in the named field and no other boolean field changes; any other value is a type error and changes nothing |
| OptionLemmas.NoIncrementalSyncEffect | internal/lsp/source/options.go:241-244 | true switches to full synchronisation, false is accepted and changes nothing, neither records an error |
| OptionLemmas.HoverKindEffect | internal/lsp/source/options.go:269-288 | each of the five names stores its constant without error |
| OptionLemmas.UnsupportedHoverKindEffect | internal/lsp/source/options.go:286-287 | any other string records "unsupported hover kind" and changes nothing |
| OptionLemmas.CompletionBudgetEffect | internal/lsp/source/options.go:259-267 | a parsable duration is stored as the budget; otherwise a parse error is recorded and nothing changes |
| OptionLemmas.EnvEffect | internal/lsp/source/options.go:219-227 | the old environment is kept as a prefix and one `k=v` line is appended per map entry |
| OptionLemmas.BuildFlagsEffect | internal/lsp/source/options.go:229-239 | the flags become the `%s` rendering of each list element, same length and order, so string elements are kept verbatim |
| OptionLemmas.DisabledAnalysesEffect | internal/lsp/source/options.go:298-307 | the set becomes exactly the `fmt.Sprint` renderings of the elements: each one (in particular each string element) is in it and nothing else is |
| OptionLemmas.StringOptionEffect | internal/lsp/source/options.go:290-321 | a string is stored in the named field; anything else is a type error and changes nothing |
| OptionLemmas.ApplyIdempotent | internal/lsp/source/options.go:216-353 | applying the same entry twice equals applying it once, for every option but env |
| OptionLemmas.EnvAppendsTwice | internal/lsp/source/options.go:225-227 | env is not idempotent: a second application appends the line again |
| OptionLemmas.ApplyBoolFrame | internal/lsp/source/options.go:216-353 | an entry changes a boolean field only when it names that field with a bool value |
| OptionLemmas.ApplyKeepsBools | internal/lsp/source/options.go:216-353 | no option other than a boolean one writes a boolean field |
| OptionLemmas.UpdateAllIsApplyAll | internal/lsp/source/options.go:184-186 | applying named entries equals applying their classifications |
| OptionLemmas.ApplyAllBool | internal/lsp/source/options.go:184-186 | with at most one entry for a boolean field, its final value is that entry's bool, or unchanged |
| OptionLemmas.UpdateAllBool | internal/lsp/source/options.go:184-186 | over a configuration map with distinct keys, each boolean field ends as the bool its own key gives, or unchanged, whatever order the map is visited in |
| OptionLemmas.DefaultSyncAndEnv | internal/lsp/source/options.go:43-76 | the defaults synchronise incrementally and inherit the environment; "noIncrementalSync": true switches them to full synchronisation, false keeps incremental; "env" appends after the inherited environment |
| OptionLemmas.ClientCapabilitiesEffect | internal/lsp/source/options.go:197-214 | snippets switch to snippet format and never back, the first hover format becomes preferred if any, the four flags are copied, nothing else changes |
| OptionLemmas.ClientCapabilitiesIdempotent | internal/lsp/source/options.go:197-214 | applying the same capabilities again changes nothing |

## Left out

- Go updates `Options` in place, through its address; here every operation takes the `Options` record and returns the new one, so aliasing of the record is not modelled.
- Go ranges over maps in an unspecified order; a configuration map and the `env` map are sequences of entries visited in their stored order. `UpdateAllBool` shows that the boolean options do not depend on that order; the `env` lines and the other options are stated for the stored order only.
- `fmt`'s sorting of map keys when a nested map is printed is not modelled: entries are rendered in stored order. The texts of error messages are not modelled; errors are a datatype naming what failed.
- `time.ParseDuration` is a parameter: a map from the strings it accepts to the duration each denotes.
- `createView` is modelled without module discovery, the builtin package, the snapshot load, `debug.AddView` and its background context; those are I/O against packages that are not part of this model. The view id is a number rather than its decimal string.
- The error returns after `createView` in `NewView` (internal/lsp/cache/session.go:65-67) and in `updateView` (internal/lsp/cache/session.go:247-254) are not modelled: `createView` never returns an error, so neither branch can run.
- `view.shutdown` is modelled only as a flag on the view; cancelling the view's work is not.
- `DidModifyFile`, `GetFile`, `DidChangeOutOfBand`, `Options`/`SetOptions` accessors of the session and `Cache` are not modelled; they go through overlays, file handles and snapshots that are not part of this model.
- Overlays are the set of URIs that have one; their contents are not modelled.
- The mutexes and the atomic view counter: calls are sequential and the counter is a field of the session.
- `debug.DropSession` in `Shutdown` is not modelled.
- `DefaultOptions`' environment, code actions, commands, diff function and analyzer tables are foreign values and are not modelled.
