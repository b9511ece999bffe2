# statemachine — a verified model of nested state machines

This project models the core of *statemachine*. That library lets any object
hold a path-shaped state string, such as `"on.washing"`, governed by a
nested finite state machine.

- **States** form a tree, and a state is named by the dotted path of the
  state names leading to it.
- **Transitions** are declared between states, with triggers, optional
  conditions and callbacks. Wildcards (`*`), lists of old states and switches
  over conditional cases expand them into explicit leaf-to-leaf transitions.
- **Placement.** Each transition is placed at the deepest state that holds
  both of its ends.
- **Triggers.** A trigger finds the group of candidate transitions for the
  object's current state and runs the first whose conditions hold.
- **Running a transition** calls the exit callbacks (innermost first), writes
  the new state once, then calls the transfer, entry (outermost first) and
  stay callbacks.

The repository holds several generations of this logic, and each generation's
file is modelled as a module of its own:

| module | file | what it is |
|---|---|---|
| `PathTools` | `states/tools.py` | `Path`, a tuple of key and index segments: parsing, printing, `+`, `tail`, `head`, `splice`, `partition`, `iter_paths`, `trace_in`, `get_in`/`set_in`/`del_in`, `iter_in`/`iter_out`; also `listify` and `group_by` |
| `OldPathTools` | `statemachine/tools.py` | the first `Path` (empty parts kept), its `+`, `listify` and `callbackify` |
| `CallbackStore` | `states/callbacks.py` | the `Callbacks` store, a class whose kinds map to lists that `register` extends in place |
| `Configuration` | `states/configuration.py` | the configuration builders `states`, `state`, `transitions`, `transition`, `switch`, `case`, `default_case` |
| `StateTree` | shared | the tree of states, looking a state up by name or index, first-leaf paths |
| `Normalize` | `states/normalize.py` | `validate_new_state`, `get_extended_paths`, `get_expanded_paths` (deque work queues), `get_spliced_path(s)`, `config_getter` |
| `Normalization` | `states/normalize.py` | the inner helpers of `normalize_statemachine_config`: `initial_state`, `validate_states`, `create_new`, `expand_transitions`, `validate_transitions`, `gather_transitions` |
| `Standardize` | `states/standardize.py` | the earlier `standardize_statemachine_config`: `initial_state`, `sub_paths`, `standardize_transition`, `pushdown_transitions`, `merge`, `validate_transitions`, recursion over sub-states |
| `Machine` | `states/machine.py` (+ `add_condition` of `states/transitions.py`) | the current machine: a class holding the transitions and the `triggering`/`trans_dict` dictionaries, the lookup cache and the `verified` flag |
| `Transitions` | `states/transitions.py` | the current `Transition`: `common_state`, `on_exits`, `on_entries`, `execute`, `as_json_dict` |
| `TransitionLegacy` | `states/transition.py` | the previous `Transition`: `_validate`, the exit and entry state tuples, `execute` |
| `OldStateMachine` | `states/old_state_machine.py` | the older nested machine: standardising, switch expansion, creation, trigger filing and checks, `_get_transitions`, `trigger`, the initial path and the descriptor |
| `FlatMachine` | `statemachine/machine.py` | the flat first machine: states, `_expand_transitions`, the two dictionaries, `execute`, `do_trigger`, `set_state`, the state object |
| `Trace` | shared | the holder of a state: its state string and the trace of events (callbacks called, state written) |
| `Wrappers` | shared | `Result`/`Option` and the Python error kinds |

**Events and side effects.**
- Callbacks are opaque identifiers. Calling one appends an event to the
  holder's trace, so the order of callbacks and writes is what the proofs
  talk about.
- The result of a condition callback is a parameter (`outcome`).
- Python exceptions are the `Err` side of `Result`: `MachineError`,
  `TransitionError`, `KeyError`, `AttributeError`, `TypeError` and `ValueError`.

**Generated transitions.** The loops of the source are methods with loop
invariants, proved against functions that state the result. The properties
are proved about those functions as lemmas.

## Model

| member | source | states |
|---|---|---|
| PathTools.IntStringRoundTrip | states/tools.py:109-114 | `int(str(n)) == n` for every integer, so an index segment survives printing and re-validation |
| PathTools.SplitJoin | states/tools.py:116-121 | splitting the `.`-join of separator-free parts gives the parts back |
| PathTools.JoinSplit | states/tools.py:116-121 | joining the parts of `s.split(".")` gives `s` back |
| PathTools.ParseWellFormed | states/tools.py:116-121 | a parsed path has no empty key, no key containing `.`, and no key that `int` would have accepted |
| PathTools.ParsePrint | states/tools.py:116-121 | `Path(str(p)) == p` for every well-formed path; see also states/tools.py:249-251 |
| PathTools.PrintParse | states/tools.py:116-121 | `str(Path(s)) == s` when `s` has no empty part and its numeric parts are written as `str` writes integers (no sign `+`, no leading zero); see also states/tools.py:249-251 |
| PathTools.ParseIdempotent | states/tools.py:116-121 | parsing the printed form of a parsed string gives the same path; see also states/tools.py:249-251 |
| PathTools.SplitExample | states/tools.py:116-121 | `"a..3".split(".")` is `["a", "", "3"]`: the empty part is kept by the split |
| PathTools.ParseExample | states/tools.py:116-121 | `Path("a..3")` is `[Key "a", Idx 3]`, which prints as `"a.3"`: the empty part is dropped; see also states/tools.py:249-251 |
| PathTools.ConcatWellFormed | states/tools.py:170-176 | a concatenation is well formed exactly when both parts are |
| PathTools.AddPrinted | states/tools.py:170-176 | `p + str(q) == p + q` for a well-formed `q` |
| PathTools.IterPaths | states/tools.py:190-193 | the result holds exactly `len(p)` paths; the `i`-th is `p[:i+1]`, so they are the non-empty prefixes, shortest first |
| PathTools.Tail | states/tools.py:195-202 | when `q` is a prefix of `p` the result is `p[len(q):]`, so `q + r == p`; a mismatching segment is a `KeyError`; a longer `q` that starts with `p` is an `IndexError` |
| PathTools.HeadOfNothingIsEmpty | states/tools.py:204-211 | as written, stripping an empty path from the right gives the empty path (see Findings) |
| PathTools.Head | states/tools.py:204-211 | succeeds exactly when `q` is a suffix of `p`, and then `r + q == p` (`p` itself for an empty `q`); otherwise `IndexError` for a longer `q`, else `KeyError` |
| PathTools.SpliceLaws | states/tools.py:230-239 | `c + ta == a` and `c + tb == b`; the tails do not start with the same segment, so `c` is the longest common prefix; equal paths give two empty tails |
| PathTools.SpliceUnique | states/tools.py:230-239 | any split into a common part and tails that do not start alike is the one `splice` returns |
| PathTools.Splice | states/tools.py:230-239 | the loop over the zipped segments returns exactly `SpliceOf(a, b)` |
| PathTools.Partition | states/tools.py:241-247 | a path containing `key` splits around its first occurrence (`before + [key] + after == p`, `key` not in `before`); an absent key returns `(p, key, [])`, and the empty path `([], key, [])` |
| PathTools.TracedLaws | states/tools.py:213-225 | every visited `(head, tail)` satisfies `head + tail == p`; heads grow by one segment per step; `first` adds `([], p)`; `last` adds `(p, [])`; otherwise the walk stops before the tail is empty |
| PathTools.InnerSplitsAll | states/tools.py:213-225 | the walk lists every split strictly inside the path |
| PathTools.TraceIn | states/tools.py:213-225 | the triples yielded are `(head, target[head], tail)` for the splits `Traced(p, first, last)` lists, in order; a lookup that fails raises its error (KeyError, IndexError, ...) right after the triples of the keys before it, and only then |
| PathTools.ReachConcat | states/tools.py:217-219 | walking `p + q` walks `p`, then `q` from the node reached; a failure on the way is the failure of the whole walk |
| PathTools.GetInOr | states/tools.py:140-152 | with a default, any lookup error gives the default, and a successful lookup gives the item |
| PathTools.HasIn | states/tools.py:128-138 | true exactly when `get_in` finds the path, false exactly when it raises KeyError; every other error propagates |
| PathTools.HasInErrors | states/tools.py:128-138 | a missing key answers false, while an index past the end of a list raises IndexError |
| PathTools.SetThenGet | states/tools.py:140-160 | after a successful `set_in`, `get_in` on the same path returns the stored item |
| PathTools.SetChangesOneKey | states/tools.py:154-160 | `set_in` on a mapping parent changes only the one key it stores under |
| PathTools.DelRemovesOneKey | states/tools.py:162-168 | `del_in` on a mapping parent removes exactly one key, the segment or its string form, and keeps every other |
| PathTools.WalkSteps | states/tools.py:178-184 | each node `iter_in` yields is the child of the one before it under the next key |
| PathTools.IterOutReverses | states/tools.py:186-188 | `iter_out` yields the nodes of `iter_in` in reverse order |
| PathTools.Listify | states/tools.py:26-31 | a list or tuple gives its elements in order, a set gives its members each once (some order), anything else a one-element list |
| PathTools.GroupMembers | states/tools.py:280-284 | a group holds only objects with its key, in their order in the input |
| PathTools.GroupingAt | states/tools.py:280-284 | a key is present exactly when some object has it, and then maps to all its objects in order, at least one |
| PathTools.GroupBy | states/tools.py:280-284 | the loop filling a `defaultdict(list)` builds exactly the grouping |
| OldPathTools.Listify | statemachine/tools.py:4-9 | a list or tuple gives its elements, anything else (a set included) a one-element list |
| OldPathTools.ListifyIdempotent | statemachine/tools.py:4-9 | listifying a listified value changes nothing |
| OldPathTools.Callbackify | statemachine/tools.py:12-29 | the combined callback runs only the first callback and returns its result; with none it runs nothing and returns None |
| OldPathTools.LaterParseDropsEmptyParts | statemachine/tools.py:48-60 | the first parser keeps every part of the split; the later one is it with the empty parts removed |
| OldPathTools.EmptyStringParse | statemachine/tools.py:48-60 | `""` parses to one empty key here and to the empty path in the later version |
| OldPathTools.Print | statemachine/tools.py:141-143 | printing fails with `TypeError` exactly when some segment is an index; otherwise it joins the names with `.` |
| OldPathTools.PrintParse | statemachine/tools.py:48-60 | a string none of whose parts is a number prints back as itself; see also statemachine/tools.py:141-143 |
| OldPathTools.Add | statemachine/tools.py:102-106 | `p + s` for a string appends the parsed path; `p + n` for an int is a `TypeError`; a path is appended as is |
| OldPathTools.AddString | statemachine/tools.py:102-106 | adding a string adds one segment per `.`-delimited part, empty parts included |
| CallbackStore.StripIdempotent | states/callbacks.py:8-15 | the stripped kind name has no leading or trailing whitespace, so stripping again changes nothing |
| CallbackStore.StripLeftSuffix | states/callbacks.py:8-15 | `lstrip` drops leading whitespace only: the result is a suffix starting with a non-space, or empty |
| CallbackStore.StripRightPrefix | states/callbacks.py:8-15 | `rstrip` drops trailing whitespace only: the result is a prefix ending with a non-space, or empty |
| CallbackStore.ArgumentsLast | states/callbacks.py:20-26 | a kind is present exactly when some keyword argument strips to it, and it holds the argument of the last such one |
| CallbackStore.Callbacks.constructor | states/callbacks.py:20-26 | every kind is stored as a list: the stripped names map to their listified arguments |
| CallbackStore.Callbacks.Call | states/callbacks.py:28-47 | an unknown kind is an `AttributeError`; otherwise every callback of the kind runs, in order, with no short-circuit, and the result is true exactly when all hold (true for none) |
| CallbackStore.Callbacks.Register | states/callbacks.py:49-50 | the kind's stored list is extended in place, so later calls run the added callbacks and `has_any` holds; an unknown kind is a `KeyError` and changes nothing |
| CallbackStore.Callbacks.Copied | states/callbacks.py:55-56 | the store `copy` builds holds exactly the given kinds |
| CallbackStore.Callbacks.Copy | states/callbacks.py:55-56 | a fresh store with equal kinds and lists, independent of this one |
| CallbackStore.Callbacks.AsJsonDict | states/callbacks.py:58-59 | exactly the kinds whose lists are not empty, with their lists |
| Configuration.OrEmptyList | states/configuration.py:37-41 | `v or []`: a falsy value becomes the empty list, anything else is kept |
| Configuration.Set | states/configuration.py:10-18 | `d[k] = v`: an existing key keeps its place and takes `v`, a new key goes last |
| Configuration.GetAt | states/configuration.py:10-18 | a key's first entry is the one a lookup finds |
| Configuration.UpdateGet | states/configuration.py:10-18 | after `update`, a key holds the value of its last pair in the update, or keeps its old value |
| Configuration.State | states/configuration.py:21-28 | transitions without sub-states are a `MachineError`; with sub-states the result has `states`, `transitions`, `on_entry`, `on_exit`, `info` and no `on_stay`; without them `on_entry`, `on_exit`, `on_stay`, `info` |
| Configuration.DefaultState | states/configuration.py:21-28 | the leaf configuration is what `state()` gives with every argument defaulted, which succeeds |
| Configuration.States | states/configuration.py:10-18 | a `MachineError` exactly when some name is not a string or some configuration is not a dictionary; otherwise a dictionary |
| Configuration.StatesLookup | states/configuration.py:10-18 | a keyword configuration wins over a positional name; a name given only positionally gets the default leaf |
| Configuration.Transitions | states/configuration.py:31-34 | an error exactly when some element is not a dictionary; otherwise the list of them, in order |
| Configuration.Transition | states/configuration.py:37-41 | a `MachineError` exactly when the target is a Mapping, whatever the condition, because the guard tests the always-truthy function `case`; otherwise the six keys in order, with a falsy `on_transfer` or `condition` replaced by `[]` |
| Configuration.TransitionRefusesMappings | states/configuration.py:37-41 | a mapping target is refused even without any condition, while a list of cases is accepted |
| Configuration.Switch | states/configuration.py:44-47 | an error exactly when some case is not a dictionary; otherwise the list of the cases in order |
| Configuration.Case | states/configuration.py:50-51 | the keys `state`, `condition`, `on_transfer`, `info`; the given condition is kept and a falsy `on_transfer` becomes `[]` |
| Configuration.DefaultCase | states/configuration.py:54-55 | the keys of a case, with the empty tuple as condition |
| Configuration.DefaultCaseIsUnconditioned | states/configuration.py:50-55 | a default case is a case whose condition is falsy, so nothing is checked before taking it |
| StateTree.CanonicalNameParses | states/tools.py:116-121 | a canonical state name (non-empty, without `.`, not `*` and not accepted by `int()`) parses to the single key it names |
| StateTree.Child | states/machine.py:121-128 | `state[key]`: a name finds the sub-state of that name, else `KeyError`; an int, negative ones counting from the end, the sub-state at that position, else `IndexError` |
| StateTree.ChildByName | states/machine.py:121-128 | in a well-named tree a sub-state is found by its own name |
| StateTree.SubConfig | states/standardize.py:93-100 | `config['states'][key]`: only names find a sub-configuration, never an int |
| StateTree.ConfigAtAppend | states/standardize.py:93-100 | extending a path by one name looks that name up in the configuration reached |
| StateTree.ConfigAtConcat | states/standardize.py:93-100 | looking up a concatenation looks up its parts in turn |
| StateTree.FirstLeafPathLeads | states/machine.py:155-162 | following the first sub-state always ends in a leaf, and the path finds the same node as a state and as a configuration |
| StateTree.NamePath | states/machine.py:53-62 | `state.path` of the state a path finds: the names passed, so an index becomes the name it selects |
| StateTree.NamePathFinds | states/machine.py:53-62 | in a well-named tree the name path finds the same state |
| Normalize.ValidateNewState | states/normalize.py:12-16 | accepted exactly when the target is a single name without `*`, and then returned unchanged; otherwise `MachineError` |
| Normalize.Resolve | states/normalize.py:129-146 | the path is looked up below the declaring state, then below each enclosing state up to the root; the first that finds it wins, else `MachineError` |
| Normalize.ResolveFails | states/normalize.py:129-146 | resolution fails exactly when the lookup fails from every enclosing state |
| Normalize.FindConfig | states/normalize.py:129-146 | the loop over enclosing states computes `Resolve` |
| Normalize.GetBounded | states/normalize.py:19-30 | a getter gives only canonical sub-state names, bounded in number and depth; this bounds the work queues |
| Normalize.ChildrenWeight | states/normalize.py:19-30 | replacing a path with sub-states by its children lowers the queue's weight, so the extension loop ends |
| Normalize.ExtendQueueLeaves | states/normalize.py:19-30 | every path the extension queue emits is a leaf: the getter gives it no sub-states |
| Normalize.ExtendedLeaves | states/normalize.py:19-30 | the extended paths are leaves below the base path, and a leaf extends to itself alone |
| Normalize.ExtendQueueNoWildcard | states/normalize.py:19-30 | extension adds only canonical names, so it brings in no wildcard |
| Normalize.GetExtendedPaths | states/normalize.py:19-30 | the deque loop computes `Extended(starts, getter, base)` |
| Normalize.SubstitutedWeight | states/normalize.py:33-53 | replacing a wildcard by the sub-state names lowers the queue's weight, so the expansion loop ends |
| Normalize.ExpandQueueNoWildcard | states/normalize.py:33-53 | no expanded path has a wildcard after the base path, and with extension each one ends in a leaf |
| Normalize.ExpandQueuePlain | states/normalize.py:33-53 | a path without `*` taken from the queue contributes its expansion, then the rest of the queue |
| Normalize.ExpandQueueStar | states/normalize.py:33-53 | a path with `*` is replaced at the back of the queue by one path per sub-state name of its head |
| Normalize.RemoveSpaces | states/normalize.py:33-53 | `replace(' ', '')`: no space is left and every other character is kept in order |
| Normalize.GetExpandedPaths | states/normalize.py:33-53 | the deque loop, with spaces removed and optional extension, computes `Expanded(names, getter, base, extend)` |
| Normalize.SplicedPathLaws | states/normalize.py:61-67 | `common + old_tail == old` and `common + new_tail == new`, both tails non-empty; they start alike exactly when one path is a prefix of the other, the last common segment then moving into both |
| Normalize.SplicedPathFails | states/normalize.py:61-67 | the split fails only for an empty path, or when an int segment would be moved back into a tail |
| Normalize.SplicedPathSame | states/normalize.py:61-67 | a path spliced with itself splits off its last name into both tails |
| Normalize.SplicedPairsFailEarly | states/normalize.py:75-81 | a failure on a prefix of the old paths is the failure of them all |
| Normalize.GetSplicedPaths | states/normalize.py:75-81 | the nested loops compute `SplicedPaths`: one splice per (old path, new path), old-major |
| Normalization.ConcatMember | states/normalize.py:208-232 | the concatenated results exist exactly when every step succeeds, and each element comes from one step |
| Normalization.ConcatUniform | states/normalize.py:208-232 | steps giving `m` results each give `m` results per element in all |
| Normalization.InitialStateIsLeaf | states/normalize.py:158-165 | an initial state names a leaf of the tree |
| Normalization.InitialState | states/normalize.py:158-165 | the descent loop computes `InitialStateOf` |
| Normalization.InitialStatesLeaves | states/normalize.py:193-206 | the initial states of a list of names all name leaves |
| Normalization.InitialStatesFailEarly | states/normalize.py:193-206 | a failure on a prefix of the names is the failure of them all |
| Normalization.CheckNewStates | states/normalize.py:151-153 | succeeds exactly when no new state contains `*`; otherwise `MachineError` |
| Normalization.CheckFound | states/normalize.py:154-155 | every state must be found from the root, else `MachineError` |
| Normalization.ValidateStates | states/normalize.py:151-156 | succeeds exactly when no new state has a wildcard and every state is found; the error is `MachineError` |
| Normalization.CreateNewOf | states/normalize.py:193-206 | the new states resolved to leaves and validated; a case adds its `on_transfer`, its info and its condition, and a case on a transition with its own condition is a `MachineError` |
| Normalization.CreatedLeaves | states/normalize.py:193-206 | the new states of a created transition are leaves of the tree |
| Normalization.CreateNew | states/normalize.py:193-206 | the method computes `CreateNewOf` |
| Normalization.ExpandTransition | states/normalize.py:208-231 | one declared transition expands to `ExpandOne`: per old path and trigger, one transition, or one per case |
| Normalization.ConfigPathsFound | states/normalize.py:114-117 | every path `iter_configs` yields names a state of the configuration |
| Normalization.ValidateTransitions | states/normalize.py:179-188 | succeeds exactly when no two transitions share `(old_state, new_state, trigger)`; the error is `MachineError` |
| Normalization.ExpandTransitions | states/normalize.py:190-232 | the loop over the declared transitions of one state computes `ExpandAt` |
| Normalization.GatherTransitions | states/normalize.py:234-237 | the loop over `iter_configs` computes `Gathered` |
| Normalization.NormalizeTransitions | states/normalize.py:175-245 | gathered, validated and filed under their old paths: computes `Normalized` |
| Normalization.OldPathIsLeaf | states/normalize.py:215-216 | an expanded old path is a leaf and names itself when looked up from the root |
| Normalization.CreatedOK | states/normalize.py:193-206 | every transition `create_new` makes from an expanded old path is normalised: its old and new states are names without `*` of existing leaves |
| Normalization.PairOutShape | states/normalize.py:218-221 | a pair that expands has at most its last new state switched, and that one is a list of cases |
| Normalization.NormalizedLaws | states/normalize.py:158-165 | after normalisation every state that has transitions is a leaf, and each of its transitions starts there and goes to leaves, with no wildcard; see also states/normalize.py:193-245 |
| Normalization.ExpandOneCount | states/normalize.py:208-231 | without a case list a declared transition becomes exactly one transition per (old path, trigger) |
| Normalization.CasedTransitions | states/normalize.py:222-226 | a case list gives one transition per case, in case order, each with the case's condition |
| Normalization.SwitchedPairFails | states/normalize.py:200-202 | a switched transition that also has its own condition fails for every old path and trigger |
| Normalization.SwitchedConditionRefused | states/normalize.py:200-202 | such a transition gives no transitions at all, only `MachineError`, unless it has no old path or trigger |
| Standardize.ParseJoined | states/standardize.py:105-111 | a name joined with `.` to a well-formed path parses as the name's path followed by that path |
| Standardize.InitialState | states/standardize.py:105-111 | the loop over first sub-states returns the name joined with the first-leaf path |
| Standardize.InitialStateLeaf | states/standardize.py:105-111 | the initial state of a name is that name's path followed by the first leaf below it, and names a leaf |
| Standardize.SubLeafPathsMember | states/standardize.py:113-119 | a path below a list of sub-states starts with one of their names and continues with a leaf path of that one |
| Standardize.LeafPathsExact | states/standardize.py:113-119 | `sub_paths` lists exactly the paths that lead to a leaf |
| Standardize.AllStatesLeaves | states/standardize.py:143-146 | every name `all_states` gives names a leaf below the state |
| Standardize.Appended | states/standardize.py:148-154 | succeeds exactly when both states are found and the target has no `*`, else `MachineError`; the result has the old state and trigger given and goes to a leaf below the target |
| Standardize.EachFailEarly | states/standardize.py:161-183 | a failure on a prefix of the steps is the failure of the whole |
| Standardize.TargetedMade | states/standardize.py:169-178 | what a pair generates starts at the leaf, has the pair's trigger and goes to a leaf; with cases, one per case in order |
| Standardize.DefaultedBacked | states/standardize.py:179-182 | the default rule keeps what came before and what was generated, adds at most the same-state default, and refuses a conditioned self-transition |
| Standardize.StandardizedLaws | states/standardize.py:140-183 | every generated transition goes from a leaf to a leaf, and each conditioned one is followed by an unconditioned one with its old state and trigger |
| Standardize.AppendPair | states/standardize.py:169-182 | the body of the trigger loop: the cases in order, then the default rule |
| Standardize.StandardizeTransition | states/standardize.py:140-183 | the nested loops compute `Standardized` |
| Standardize.SecondPairAsWritten | states/standardize.py:174-176 | as written, a case list serves only the first (leaf, trigger) pair: the second pops a `state` key that is already gone (see Findings) |
| Standardize.PairCases | states/standardize.py:169-178 | as intended, every pair generates one transition per case, in case order |
| Standardize.CheckUniqueness | states/standardize.py:240-246 | succeeds exactly when no two transitions share `(old_state, new_state, trigger)` |
| Standardize.CheckConditionals | states/standardize.py:248-258 | succeeds exactly when in every `(old_state, trigger)` group all but the last are conditioned and the last is not |
| Standardize.ValidateTransitions | states/standardize.py:238-262 | returns the transitions themselves when both checks pass, else `MachineError` |
| Standardize.ConditionedHasFallback | states/standardize.py:248-258 | in checked transitions, a transition is conditioned exactly when a later one has its old state and trigger |
| Standardize.Merged | states/standardize.py:199-206 | succeeds exactly when old state, new state and trigger agree and at most one is conditioned, else `MachineError`; the result keeps the first one's key and condition and concatenates the `on_transfer` lists |
| Standardize.MergeInfoAsWritten | states/standardize.py:205 | as written, merging infos `"a"` and `"b"` equals merging `"ab"` and `""` (see Findings) |
| Standardize.MergedInfoSeparable | states/standardize.py:205 | with the infos joined by `"; "`, the merged info determines both when the first has no `;` |
| Standardize.GetEqual | states/standardize.py:193-197 | the first transition alike in old state, new state and trigger, or none |
| Standardize.PushOne | states/standardize.py:208-223 | one loop turn: a transition with a common prefix leaves the list and is merged into, or appended to, the common state's configuration with relative tails; others stay |
| Standardize.PushdownTransitions | states/standardize.py:185-223 | the loop leaves exactly the staying transitions in order and places every other one below its common state |
| Standardize.PushdownLaws | states/standardize.py:185-223 | after the push-down the list holds exactly the staying transitions, and every moved one is found in its common state's configuration |
| Standardize.MovedNames | states/standardize.py:209-216 | a moved transition names, below the common state, the same states it named before |
| Standardize.StandardizedAllLeaves | states/standardize.py:228-232 | all the transitions of a level are standard transitions between leaves |
| Standardize.LevelLaws | states/standardize.py:225-236 | the transitions a level keeps are checked, and the configurations transitions move into are extended |
| Standardize.StandardizeTransitions | states/standardize.py:225-236 | each declared transition standardised in turn, then pushed down and validated, as `Level` states; the first error stops it |
| Standardize.StandardizeConfig | states/standardize.py:264-271 | the recursion over the configuration computes the standardised tree or the first error |
| Standardize.StandardizeAtFrame | states/standardize.py:264-271 | standardising the configuration at a path changes only it and the configurations below it |
| Standardize.StandardizeAtChecked | states/standardize.py:264-271 | afterwards every state with sub-states has transitions that are standard, between leaves and checked |
| Standardize.StandardizeSubsChecked | states/standardize.py:268-269 | after standardising sub-states with distinct names every one of them is checked throughout |
| Machine.StripEmpty | states/machine.py:27-28 | `name.strip()` is empty exactly when the name is blank |
| Machine.ValidateName | states/machine.py:24-33 | no name is accepted; a blank name, a leading `_` or any of `. * [ ] ( )` is a `MachineError`; otherwise the name itself |
| Machine.AcceptedNameIsKey | states/machine.py:24-33 | an accepted name that `int` refuses is one segment of a path and parses back to itself; see also states/machine.py:53-62 |
| Machine.DefaultPath | states/machine.py:155-162 | the while loop gives the first-leaf path; it ends in a leaf and is empty exactly for a leaf |
| Machine.PlacementFinds | states/machine.py:96-103 | the owner lies at or below the declaring state, and the tails name from it the states the declared names name |
| Machine.CreatedFinds | states/machine.py:96-103 | a created transition joins the states the declared names find from the declaring state, both existing |
| Machine.MissingStateRefused | states/machine.py:96-103 | a name that finds no state gives no transition |
| Machine.FiledCovers | states/machine.py:71-76 | every transition is filed under its own key; see also states/machine.py:96-103 |
| Machine.FiledMembers | states/machine.py:96-103 | every filed list is non-empty and holds, in creation order, positions of transitions with its key |
| Machine.PostOrderLaws | states/machine.py:64-69 | constructors finish in an order where every path names a state and each state comes after all states below it |
| Machine.StateMachine.constructor | states/machine.py:35-51 | the tree of states, no transition yet, an empty cache and `verified` false |
| Machine.StateMachine.CreateTransition | states/machine.py:96-103 | the created transition is appended and filed under its `(old, trigger)` and `(old, new)` keys; an error changes nothing |
| Machine.StateMachine.InitTransitions | states/machine.py:64-76 | every state's transitions are created in constructor order; the first error stops creation |
| Machine.StateMachine.VerifyTransitions | states/machine.py:78-88 | succeeds exactly when every group ends unconditioned and has conditions on all earlier transitions |
| Machine.StateMachine.Verify | states/machine.py:90-94 | the check runs only while not verified; the flag is set exactly when it passes |
| Machine.StateMachine.TriggersAre | states/machine.py:146-152 | the trigger names are exactly those of the created transitions |
| Machine.ItemTransitionsFind | states/machine.py:121-144 | the transitions `__getitem__` gives for a pair of names are never empty, and are exactly those whose owner and tails splice a pair of expanded names |
| Machine.LookedFinds | states/machine.py:299-313 | `_lookup_transitions` finds a transition exactly when its owner and tails are a splice of the names; with the length check nothing found is a `MachineError` |
| Machine.StateMachine.LookupTransitions | states/machine.py:299-313 | the loops compute `Looked` |
| Machine.GotoConfig | states/machine.py:204-213 | `from_config` without transitions gives exactly n² transitions, the one from the `i`-th to the `j`-th state being `goto_<j-th name>` |
| Machine.GotoTable | states/machine.py:204-213 | position by position, the default transitions are those of every ordered pair, self-pairs included |
| Machine.StateMachine.SetState | states/machine.py:282-289 | the named state completed to its first leaf is written to the holder; an unknown name is a `TransitionError` and changes nothing |
| Machine.LevelKey | states/machine.py:374-375 | the key tried at depth `i` names the state the walk has reached by its own path (an index segment becomes that sub-state's name), with the rest of the path as given |
| Machine.SearchFound | states/machine.py:370-380 | the group found is the first filled level from the root down along the current path, keyed by the state reached and the remaining tail; every level passed names a state; see also states/tools.py:213-225 |
| Machine.SearchFails | states/machine.py:370-380 | the search fails only for a path that names no state, or when no level has a group for the trigger |
| Machine.SearchThroughIndex | states/machine.py:374-379 | a holder path with a position (`0.x`) finds the group filed in the state at that position, as the name path `a.x` does |
| Machine.StateMachine.GetTriggerTransitions | states/machine.py:370-380 | gives the searched group and caches it; a cached group is given at once; other state is unchanged and the cache stays sound |
| Machine.FirstHoldingIs | states/machine.py:382-393 | the first holding candidate is the only one with no holding candidate before it |
| Machine.VerifiedGroupRuns | states/machine.py:78-88 | in a group that passed verification some transition always runs; see also states/machine.py:382-393 |
| Machine.StateMachine.Trigger | states/machine.py:382-393 | `prepare`, then the context, then the conditions in order up to the first that holds, whose transition runs; `ValueError` for a context given while the manager yields; no holding candidate is a `TransitionError` with the state unchanged |
| Machine.StateMachine.OnTransfer | states/machine.py:325-347 | the callback is appended to every transition between the named states; none found is a `MachineError` |
| Machine.WithTransferLaws | states/machine.py:325-347 | each transition gets the callback once per listing, and nothing else changes |
| Machine.StateMachine.AddConditionAsWritten | states/transitions.py:81-90 | as written, the condition is registered and the method then fails with `AttributeError` (see Findings) |
| Machine.DefaultMissing | states/transitions.py:81-90 | for a lone transition between two states the as-written registration leaves the group without an unconditioned last one, while the intended one closes it |
| Machine.StateMachine.AddCondition | states/transitions.py:81-90 | as intended: the condition is registered, and a group it left conditioned gets a same-state default, or `MachineError` when one exists |
| Machine.ConditionAddedLaws | states/transitions.py:81-90 | on success the group ends unconditioned and no other group opens; an error leaves it conditioned |
| Machine.ConditionAddedKeeps | states/transitions.py:81-90 | `add_condition` changes no key and no end, and only adds conditions |
| Machine.ConditionRegisters | states/transitions.py:81-90 | a successful `add_condition` registers its condition and keeps every earlier registration |
| Machine.StateMachine.Condition | states/machine.py:349-358 | the named transitions must exist; the cache is cleared, and on success each gets the condition |
| Transitions.CommonPath | states/transitions.py:26-30 | the common state's path is a prefix of both the source and the target path |
| Transitions.ExitEntryLaws | states/transitions.py:32-48 | the exits are the source's prefixes longer than the common path, longest first; the entries are the target's, shortest first |
| Transitions.OnExits | states/transitions.py:32-39 | the loop over `up` gives exactly the exit paths |
| Transitions.OnEntries | states/transitions.py:41-48 | the loop over the target's `up`, reversed, gives exactly the entry paths |
| Transitions.SetStateValue | states/machine.py:282-289 | the value written: the named state completed to its first leaf, or `TransitionError` |
| Transitions.SetStateStoresLeaf | states/machine.py:282-289 | the value stored always names a leaf below the named state |
| Transitions.AfterWriteLaws | states/transitions.py:68-77 | after the write: `on_transfer`, the entries outermost first, then `on_stay` of the common state up to the root |
| Transitions.CrossStateOrder | states/transitions.py:67-77 | on a move every exit, innermost first, precedes the single write of the state, and everything after it is transfer, entry or stay |
| Transitions.SameStateEvents | states/transitions.py:60-66 | staying: no exit, no entry, no write; `on_transfer`, then `on_stay` from the state up to the root |
| Transitions.Execute | states/transitions.py:50-79 | the holder's trace grows by exactly the events of the chosen branch and its state is the target's name on a move, unchanged on a stay |
| Transitions.AsJsonDict | states/transitions.py:92-99 | `old_state`, `new_state` and `trigger` always; a callback kind only when non-empty; `info` only when non-empty |
| TransitionLegacy.Validate | states/transition.py:11-16 | `MachineError` exactly when either end is dotted and both have the same first part |
| TransitionLegacy.ValidateLaws | states/transition.py:11-16 | accepted exactly when the ends start in different sub-states, or neither is dotted |
| TransitionLegacy.WalkReaches | states/transition.py:27-30 | `iter_in` yields after each key the state reached so far, and succeeds exactly when the whole path is reached; see also states/tools.py:178-184 |
| TransitionLegacy.Make | states/transition.py:18-32 | an invalid pair of ends is a `MachineError`; a made transition has the parsed old and new paths, the trigger and info given, the printed machine path plus new path as its new state name, one exit state per old segment and one entry state per new segment |
| TransitionLegacy.MakeLaws | states/transition.py:18-32 | a transition is made exactly when it validates and both ends are reached |
| TransitionLegacy.MakeStates | states/transition.py:27-30 | exit state `i` is the one reached by the old path less `i` segments, innermost first; entry state `i` by the first `i + 1` segments of the new path |
| TransitionLegacy.ExitTrailAt | states/transition.py:44-45 | one exit per state along the old path, the deepest first |
| TransitionLegacy.EntryTrailAt | states/transition.py:48-49 | one entry per state along the new path, the outermost first |
| TransitionLegacy.FiredOrder | states/transition.py:40-49 | on a move the state is written once, after every exit and before the transfer and every entry; staying runs `on_stay` then `on_transfer` |
| TransitionLegacy.FiredWrites | states/transition.py:40-49 | firing writes the target's name once on a move, and nothing when staying |
| TransitionLegacy.NewStore | states/transition.py:21 | the store has exactly the kinds `on_transfer` and `condition`, with the given lists |
| TransitionLegacy.ExecuteAsWritten | states/transition.py:39 | as written, the store has no `do_condition` kind, so `execute` raises `AttributeError` and runs nothing (see Findings) |
| TransitionLegacy.Execute | states/transition.py:38-51 | every condition runs; if all hold the transition fires and the result is true, otherwise false and nothing else runs |
| OldStateMachine.ValidateName | states/old_state_machine.py:21-26 | the name, unless it starts with `_` or contains `. * [ ] ( )`, which is a `MachineError` |
| OldStateMachine.ValidNameLaws | states/old_state_machine.py:21-26 | an accepted name is a single dotted-path segment and not `*` |
| OldStateMachine.StandardOne | states/old_state_machine.py:203-235 | one dictionary gives one copy per expanded old state, in order |
| OldStateMachine.StandardizeValid | states/old_state_machine.py:203-235 | a successful standardisation comes from complete dictionaries and holds only validated targets |
| OldStateMachine.StandardizeFailEarly | states/old_state_machine.py:213-217 | standardisation stops at the first dictionary missing `old_state`, `new_state` or `trigger`, with `MachineError` |
| OldStateMachine.StandardizeTransitions | states/old_state_machine.py:203-235 | the loops compute the standardised list or the first error |
| OldStateMachine.ExpandOneLaws | states/old_state_machine.py:237-277 | a plain dictionary is kept; a switch with its own condition is a `MachineError`; otherwise its cases in order, and a back-to-old-state default after a conditioned last case |
| OldStateMachine.ExpandSwitchesInOrder | states/old_state_machine.py:237-277 | the loop computes the expansion, stopping at the first error |
| OldStateMachine.CreatedLaws | states/old_state_machine.py:279-284 | exactly one transition per trigger named, each with that trigger and the dictionary's ends |
| OldStateMachine.CollectAppend | states/old_state_machine.py:279-284 | collecting two runs is collecting the first, then the second |
| OldStateMachine.CreateFor | states/old_state_machine.py:279-284 | the inner loop makes one transition per trigger of one dictionary |
| OldStateMachine.ExpandAndCreate | states/old_state_machine.py:279-284 | the loop over the dictionaries computes the created transitions or the first error |
| OldStateMachine.CheckTriggerGroupAsWritten | states/old_state_machine.py:294-307 | as written, the check of a group raises `AttributeError` exactly when it has two or more transitions, since `_condition` exists on none (see Findings) |
| OldStateMachine.CheckTriggeringAsWritten | states/old_state_machine.py:294-307 | as written, `AttributeError` exactly when some group has two or more transitions, whatever the order of the groups; otherwise the groups themselves |
| OldStateMachine.ConditionedPairAsWritten | states/old_state_machine.py:294-307 | what the check as written accepts, the corrected one accepts too; a conditioned and a plain transition on one trigger pass the corrected check but raise as written |
| OldStateMachine.CheckTriggerGroup | states/old_state_machine.py:294-307 | as intended: a group passes exactly when every transition before the last is conditioned and no two go to the same new path |
| OldStateMachine.CheckTriggering | states/old_state_machine.py:294-307 | the filed groups themselves when every group passes, else `MachineError` |
| OldStateMachine.TriggerOrderAsWritten | states/old_state_machine.py:193-201 | as written, filing by trigger walks the `(old, new)` groups, so a group's order can differ from declaration order (see Findings); see also states/old_state_machine.py:286-292 |
| OldStateMachine.RegroupedThree | states/old_state_machine.py:193-201 | with the first and last transitions sharing their ends, the middle one is filed last; see also states/old_state_machine.py:286-292 |
| OldStateMachine.FiledInOrder | states/old_state_machine.py:286-292 | filing in declaration order keeps every transition under its own old path and trigger, each group in declaration order |
| OldStateMachine.FilingLaws | states/old_state_machine.py:286-307 | filing accepts exactly the checked grouping, and keeps only what was made at the level |
| OldStateMachine.FiledLaws | states/old_state_machine.py:193-201 | every transition a level keeps was created there; see also states/old_state_machine.py:286-292 |
| OldStateMachine.CreateTransitions | states/old_state_machine.py:193-201 | standardise, expand, create, then file and check with the corrected check, in order; the first error stops it; see also states/old_state_machine.py:286-292 |
| OldStateMachine.CreateStates | states/old_state_machine.py:182-191 | one state per configuration, in order, with the configured names |
| OldStateMachine.ParentRegistered | states/old_state_machine.py:84-98 | every level built keeps the transitions made for it, and its sub-states carry the configured names; see also states/old_state_machine.py:110-114, states/old_state_machine.py:323-325 |
| OldStateMachine.CandidatesSound | states/old_state_machine.py:100-101 | in a registered tree the candidates for a trigger form a non-empty, checked group with that trigger, from a prefix of the current path; see also states/old_state_machine.py:309-317 |
| OldStateMachine.GetTransitions | states/old_state_machine.py:100-101 | the recursive lookup computes `Candidates`: prefixes tried shortest first at each level, then the child named by the first segment; a leaf is a `TransitionError`; see also states/old_state_machine.py:309-317 |
| OldStateMachine.AttemptedFirst | states/old_state_machine.py:439-444 | only the first candidate whose conditions hold fires; every condition up to it is checked first |
| OldStateMachine.AttemptedNone | states/old_state_machine.py:439-444 | when no candidate holds, only the conditions run and the state stays |
| OldStateMachine.AttemptedWrites | states/old_state_machine.py:439-444 | a trigger writes the state at most once, and what it writes is the state it ends in |
| OldStateMachine.TryCandidate | states/old_state_machine.py:439-444 | one candidate's callbacks in a store of their own, then its `execute` |
| OldStateMachine.RunCandidates | states/old_state_machine.py:439-444 | the loop runs candidates in order until one fires; the trace and state are those of `Attempted` |
| OldStateMachine.Trigger | states/old_state_machine.py:439-444 | the candidates for the current path are looked up and run; a failed lookup changes nothing and is the error |
| OldStateMachine.InitialPathLeads | states/old_state_machine.py:50-54 | the initial path leads to a leaf and starts with the names of the named state's path; see also states/old_state_machine.py:427-432 |
| OldStateMachine.InitialPathDefault | states/old_state_machine.py:50-54 | with no name given the initial path is that of the machine's first leaf; see also states/old_state_machine.py:427-432 |
| OldStateMachine.NewMachineLaws | states/old_state_machine.py:346-375 | a built machine keeps every transition at the level it was made on, and starts in a leaf |
| OldStateMachine.AssignOnce | states/old_state_machine.py:386-389 | the state can be assigned once and then reads back; every other attribute is unchanged; a second assignment is an `AttributeError` |
| OldStateMachine.Descriptor.SetName | states/old_state_machine.py:377-379 | the attribute name is checked, and the state is kept under it with a leading `_` |
| OldStateMachine.Descriptor.Set | states/old_state_machine.py:386-389 | the first assignment stores the value; a later one is an `AttributeError` and changes nothing |
| OldStateMachine.Descriptor.Get | states/old_state_machine.py:381-384 | the value stored under the attribute name |
| FlatMachine.CreateStates | statemachine/machine.py:107-114 | a repeated name is a `MachineError`; otherwise the states in declaration order |
| FlatMachine.PassMembers | statemachine/machine.py:134-156 | a pass keeps every declaration with a plain name on its side and replaces each wild one by copies for admitted names, skipping the self-pair and pairs already declared |
| FlatMachine.ExpandedNamed | statemachine/machine.py:134-156 | after both passes no end is a list, and a new pair never joins a state to itself |
| FlatMachine.ExpandPass | statemachine/machine.py:137-145 | iterating a copy while appending and removing computes `Pass` |
| FlatMachine.ExpandTransitions | statemachine/machine.py:134-156 | the two passes compute `Expanded` |
| FlatMachine.WildcardBothEnds | statemachine/machine.py:134-156 | `*` → `*` over three states becomes exactly the six transitions between two different states |
| FlatMachine.FillLaws | statemachine/machine.py:116-132 | filling a dictionary succeeds exactly when no key repeats, and then holds every row and nothing else; see also statemachine/machine.py:158-167 |
| FlatMachine.TransitionDictLaws | statemachine/machine.py:116-132 | the transition dictionary exists exactly when every end is a declared state and no `(old, new)` pair repeats |
| FlatMachine.CreateTransitions | statemachine/machine.py:116-132 | the caller's list is expanded in place and the dictionary built, or `MachineError` |
| FlatMachine.TriggerDictLaws | statemachine/machine.py:158-167 | the trigger dictionary exists exactly when no `(old state, trigger)` repeats, and maps each to its transition's key |
| FlatMachine.CreateTriggerDict | statemachine/machine.py:158-167 | the nested loops compute the fill of the trigger rows |
| FlatMachine.NewMachine | statemachine/machine.py:74-105 | built exactly when names are distinct, ends known, pairs and trigger keys unique; the result is consistent |
| FlatMachine.DefaultConditionRaises | statemachine/machine.py:38 | as written, the default condition takes three arguments but is called with one: a `TypeError` (see Findings); see also statemachine/machine.py:54 |
| FlatMachine.Holds | statemachine/machine.py:38 | as intended, an absent condition holds; a given one is what the callbackified list returns, so an empty list does not hold; see also statemachine/machine.py:54 |
| FlatMachine.FiredOrder | statemachine/machine.py:54-61 | the state changes exactly once; every event before it is `before_any_exit`, `on_exit` or `on_transfer`, every one after it `on_entry` or `after_any_entry` |
| FlatMachine.Execute | statemachine/machine.py:45-62 | the result is whether the condition holds; if it does the callbacks run and the state changes as `Fired`, else nothing happens |
| FlatMachine.DoTrigger | statemachine/machine.py:169-174 | an unknown `(state, trigger)` is a `TransitionError` and changes nothing; otherwise its transition from the current state executes |
| FlatMachine.MachineSetState | statemachine/machine.py:176-181 | the transition `(current, target)` executes; a missing one is a `TransitionError` and changes nothing |
| FlatMachine.FlatObject.ChangeState | statemachine/machine.py:214-220 | the current state becomes the previous one and the new state is current |
| FlatMachine.FlatObject.SetState | statemachine/machine.py:228-235 | assigning the current state does nothing; otherwise the machine's `set_state` runs |
| FlatMachine.InitialOverwritten | statemachine/machine.py:198-202 | as written, with no initial state the object ends up with none (see Findings) |
| FlatMachine.InitialState | statemachine/machine.py:190-203 | as intended: the given state if it is one (`ValueError` otherwise), the first state when none is given |
| FlatMachine.NewObject | statemachine/machine.py:190-203 | a fresh object in the intended initial state, with no previous state and an empty trace |

## Left out

- Callbacks are identifiers, not functions. Calling one appends an event to a
  trace, and condition results are a parameter. Arguments passed to callbacks
  (`*args`, `**kwargs`), the return value of callbacks other than conditions,
  and callbacks that raise are not modelled.
- Name resolution of callbacks by attribute (`_get_func` looking a string up on
  the object), `_nameify`, `__repr__`/`json.dumps` and `copy_struct` are not
  modelled; configurations and stores are plain values.
- The context manager of `trigger` is two events (enter, exit) and a flag for
  whether it yields a value; `contextlib` itself is not modelled.
- Object identity (`is`) is modelled as equality of paths: two states are the
  same exactly when their paths are.
- `get_in`, `set_in` and `del_in` work on values (a tree of dictionaries,
  lists and atoms) and return the new tree; aliasing and in-place update of
  shared containers are not captured. The older `get_in`/`set_in`/`del_in`, `iter_paths`,
  `tail` and `head` of statemachine/tools.py have the same bodies as the later
  ones and share their model.
- Python's `int()` is modelled as an optional sign followed by ASCII digits;
  its acceptance of surrounding whitespace, underscores and non-ASCII digits
  is not modelled.
- CallbackStore.IsSpace: `str.strip` is modelled with the ASCII whitespace
  characters only; the Unicode whitespace Python also strips is not.
- PathTools.IterPaths: the `cast` argument of `iter_paths` is dropped; the
  paths are always given as they are, as every caller in the core does.
- `lazy_property` values are computed on every use; caching them changes
  nothing observable.
- The work queues of `get_extended_paths` and `get_expanded_paths` are modelled
  with getters over the finite tree of states only; a getter that invents
  names is not covered.
- The trees the machines are built from are assumed well named: sub-state
  names are canonical and distinct. Building from a tree with repeated names
  is not modelled. A canonical name is non-empty, contains no `.`, is not
  `*` and is not a string `int()` accepts, so it parses back as one key.
  The current machine's `_validate_name` (states/machine.py:24-33) does
  accept numeric names such as `"1"`; `path + name` then parses such a name
  as a position. Machines with numeric state names are not modelled.
- Where states/normalize.py and the older machine read a configuration with
  `.get('states', {})` or a default argument, an absent `states` or
  `transitions` key is not distinguished from an empty one. The earlier
  standardisation does tell them apart: Standardize.StandardizeConfig gives
  KeyError for a missing `transitions`, as states/standardize.py:267 does.
- OldStateMachine.ExpandOne: a plain transition dictionary without a
  `condition` key is given the empty condition when it is standardised. As
  written the key stays absent, so an empty switch right after such a
  dictionary reads `new_transition_dicts[-1]["condition"]`
  (states/old_state_machine.py:267). That raises KeyError, which lines
  273-274 turn into MachineError; the model reads the empty condition there
  and gives the list unchanged.
- The import lines of three core files name helpers that states/tools.py
  does not define: `MachineError` and `transition` in states/standardize.py:4;
  `MachineError`, `TransitionError`, `do_callbacks` and `nameify` in
  states/old_state_machine.py:11-12, which also imports states/standardize.py
  at line 9; `dummy_context_manager` in states/machine.py:13. As written,
  importing these modules fails with ImportError. The model takes
  `MachineError` and `TransitionError` to be those of states/exception.py,
  `transition` to be the builder of states/configuration.py:37-41 (whose
  records always hold `condition` and `info`), and the others to be the
  evident helpers.
- The current machine is modelled running the `Transition` of
  states/transitions.py. As written, states/machine.py:14 imports the
  previous `Transition` of states/transition.py, whose constructor the
  keywords of `create_transition` (states/machine.py:101) also fit; with it,
  `execute` and `add_condition` would raise AttributeError (see Findings).
- `StateMachine.from_config` (states/machine.py:204-213) is modelled only
  for its default `goto_` transitions (Machine.GotoConfig). Its call of
  `normalize_statemachine_config` followed by the constructor is not
  modelled as one path: the constructor is given transitions as declared,
  and the new-state lists that normalisation places at the leaves
  (states/normalize.py:205, 239-242) are not fed to it.
- The `initial` argument of the older machine's `get_initial_path` is given as
  an option, and the root machine's own name is not validated.
- Machine.StateMachine.Condition: on success, only the registration of the
  condition on every found transition is stated. Which defaults are created
  is stated per transition by AddCondition.
- OldStateMachine.Trigger runs each candidate with the corrected
  TransitionLegacy.Execute; as written every candidate raises, see Findings.
- TransitionLegacy.Execute: as written, `execute` calls `do_condition`,
  `do_on_transfer` on the transition and `do_on_stay`, `do_on_exit` and
  `do_on_entry` on the states (states/transition.py:39-49). None of these
  exist: the store only has `condition` and `on_transfer`, and the older
  states only have `do_exit` and `do_entry`
  (states/old_state_machine.py:174-181). The corrected Execute runs the
  condition, stay, exit, transfer and entry callbacks these calls evidently
  mean.
- `StateMachine.get_path`, `_lookup_states`, `_register_state_callback`,
  `on_entry`/`on_exit`/`on_stay` decorators, `_install_triggers`,
  `__set_name__` of the current machine, `as_json_dict` of states,
  `__contains__` and `triggers` as a lazily cached set are not modelled
  separately: they only wrap lookups and registration modelled above.
- `state_machine()`, `class_attributes`, `DummyMapping`, `stopwatch` and
  `save_graph` are left out: they are class plumbing, timing or file output.
- The clock, I/O, graphviz output, the Markov machine (floating point and
  randomness) and the example programs are not part of this model.

## Findings

| source | as written | input that shows it | evidently intended | confidence | as-written member | corrected member |
|---|---|---|---|---|---|---|
| states/tools.py:204-211 | `head` returns `self[:-len(path)]`, and `-0` is `0` | `Path("a.b").head(Path())` gives `Path()` | stripping nothing leaves the whole path | not executed | PathTools.HeadOfNothingIsEmpty | PathTools.Head |
| states/transitions.py:81-90 | `add_condition` reads `self.state.transitions[self.trigger]`, but states have `trans_dict` and `triggering`, not `transitions` | any call after registering the condition, e.g. a lone `a` → `b` transition | look up the trigger group and add the same-state default when it ends conditioned | not executed | Machine.StateMachine.AddConditionAsWritten | Machine.StateMachine.AddCondition |
| statemachine/machine.py:198-202 | `self._new_state = initial` runs unconditionally after the `if` | a machine with states `on`, `off` and no `initial` | the first state when none is given | not executed | FlatMachine.InitialOverwritten | FlatMachine.NewObject |
| statemachine/machine.py:38 | the default condition `lambda obj, o, n: True` is called as `self.condition(obj)` at line 54 | any transition declared without a condition | an absent condition always holds | not executed | FlatMachine.DefaultConditionRaises | FlatMachine.Holds |
| states/transition.py:39 | `execute` calls `self.do_condition`, but the store only has `condition` and `on_transfer`; the calls that follow, `self.do_on_transfer` and the states' `do_on_stay`, `do_on_exit` and `do_on_entry` (lines 41-49), name attributes that do not exist either | any transition | the conditions are checked, then the stay or exit, transfer and entry callbacks run | not executed | TransitionLegacy.ExecuteAsWritten | TransitionLegacy.Execute |
| states/standardize.py:174-176 | `case.pop('state')` mutates the shared case dictionaries | a switch on an old state with two leaves, or with two triggers | every (leaf, trigger) pair gets every case | not executed | Standardize.SecondPairAsWritten | Standardize.PairCases |
| states/standardize.py:205 | `'; '.join([a + b])` joins a one-element list, so no separator is added | infos `"a"` and `"b"` merge as `"ab"` | `'; '.join([a, b])` | not executed | Standardize.MergeInfoAsWritten | Standardize.MergedInfoSeparable |
| states/old_state_machine.py:193-201 | `_create_triggering`, called from lines 286-292, walks the transitions grouped by `(old, new)`, not in declaration order | `A`→`B` on `y`, then `A`→`C` on `x` with a condition, then `A`→`B` on `x`: the `x` group is filed as `[A→B, A→C]`, ends in the conditioned one and is refused by the corrected check of the next row (as written, that check raises AttributeError first) | each trigger group in declaration order | not executed | OldStateMachine.TriggerOrderAsWritten | OldStateMachine.FiledInOrder |
| states/old_state_machine.py:299 | `_check_triggering` tests `transition._condition`, an attribute no transition has, so `Callbacks.__getattr__` raises AttributeError | `A`→`C` on `x` with a condition, then `A`→`B` on `x`: any trigger group of two or more transitions, such as every switch | the test reads whether the transition has a condition | not executed | OldStateMachine.CheckTriggeringAsWritten | OldStateMachine.CheckTriggerGroup |
