# slcurl handle lifecycle and option storage, in Dafny

slcurl is the S-Lang binding for libcurl. This project models the binding's
own bookkeeping, as kept in `src/curl-module.c`:

- **Easy handles** (`Easy_Type`) are the class `CurlHandles.Easy`. The class
  has these fields:
  - the open/closed native handle;
  - the `PERFORM_RUNNING` bit in `flags`;
  - the back-reference `multi` and the list link `next`;
  - the `opt_strings` slot table (an `array`);
  - the eight string-list slots;
  - the four callback/data pairs.
- **Multi handles** (`Multi_Type`) are the class `CurlHandles.Multi`. The
  class has the open/closed native multi handle, the head `ez` of the
  intrusive list, `flags` and `length`. A ghost sequence `members` gives the
  list's contents. `Multi.Valid()` states that:
  - the list reached through `ez` and `next` is `members`, with no repeats;
  - `length` counts it;
  - every member points back to its multi handle, is held by it and is open;
  - a closed multi handle has no members;
  - `flags` stays zero.
- **The guards** `check_handle` and `pop_multi_type`, and the list
  operations: add, remove, the internal remove, close, and multi perform with
  its flag walks.
- **The easy operations**: close, perform, get-url and `curl_setopt`. For
  `curl_setopt`, the `do_setopt` table sorts each option into one of four
  setter families: integer, callback, string and string-list. Each family is
  specified by a pure "effect" function on the stored state. The handle's
  methods are proved to match those functions.
- **The read-callback byte cap.**

libcurl calls are not modelled. Each one becomes a parameter giving its
outcome:
- `nativeOk` is one call's success;
- `appendOk(i)` is the `curl_slist_append` outcome for array position `i`;
- `removeOk(x)` is the `curl_multi_remove_handle` outcome for handle `x`;
- `steps` is the sequence of answers from `curl_multi_perform`.

The S-Lang reference that a multi handle keeps on an attached easy handle is
the counter `Easy.multiHolds`.

Behaviour the model follows from the code, where the module's documentation
describes it differently:
- Removing a handle that is not in the multi handle's list succeeds silently.
  It does not fail. The model uses the corrected search here: an empty list
  answers "not attached" (see "## Findings").
- Nothing ever sets a multi handle's `flags`, so the multi "busy" state is
  never reported (`Multi.NeverBusy`).
- `curl_get_url` returns the URL given at construction. It does not return
  the last one set through `CURLOPT_URL`.
- A string-list option whose libcurl call fails leaves its slot empty. The
  old list is not restored.
- A libcurl failure in the callback setter returns -1 without raising an
  error (`NativeUnreported`).
- There are eight string-list slots, not seven.
- A failure of `curl_multi_fdset` during multi perform is raised, and the
  running count is -1. Only a failing `select` fails open.

## Model

| member | source | states |
|---|---|---|
| CurlOptionTableFacts.StringSlotsDistinctAndInRange | src/curl-module.c:504-800 | over the corrected table (CURLOPT_SSLENGINE_DEFAULT sent to the integer setter), every string option has a slot index between 0 and 134, and its identifier maps back to that option alone |
| CurlOptionTableFacts.StringSlotsInjective | src/curl-module.c:395-424 | two different string options never share an `opt_strings` slot |
| CurlOptionTableFacts.ListSlotsInjective | src/curl-module.c:631-686 | each of the eight string-list slots belongs to exactly one option |
| CurlOptionTableFacts.UnlistedRejected | src/curl-module.c:795-799 | an option the switch does not name is rejected as unsupported |
| CurlOptionTableFacts.SslEngineDefaultNeverSettable | src/curl-module.c:753-761 | as written, CURLOPT_SSLENGINE_DEFAULT goes to the string setter with a slot index outside every slot table, so every call fails and leaves the table alone: a string argument with the index error, any other single argument with the type error |
| CurlOptions.LongOptValue | src/curl-module.c:330-342 | the integer setter accepts no argument exactly for options with a default, and then uses the default; it accepts exactly one numeric argument; more than one argument is an argument-count error |
| CurlOptions.LongOptEffect | src/curl-module.c:330-350 | the integer setter succeeds iff the argument rule holds and libcurl accepts; if libcurl refuses, the error is raised |
| CurlOptions.CompactElements | src/curl-module.c:461-474 | a string is in the built list iff the array holds it, and the list is no longer than the array |
| CurlOptions.CompactNoNulls | src/curl-module.c:461-474 | an array without NULL elements becomes the list of the same strings in the same order |
| CurlOptions.BuildList | src/curl-module.c:461-474 | the append loop gives the array's non-NULL elements in array order when every append succeeds, and fails otherwise |
| CurlOptions.StoreString | src/curl-module.c:395-424 | the slot index must be inside the table (otherwise an internal error); storing the string already there succeeds without libcurl; otherwise the slot takes the new string iff libcurl accepts it, and on any error the table is unchanged |
| CurlOptions.StringOptEffect | src/curl-module.c:426-442 | the string setter needs exactly one string argument; on success only the option's slot changes and it holds that string |
| CurlOptions.StoreStringIdempotent | src/curl-module.c:409-410 | storing the same string twice leaves the table as storing it once, and the second call succeeds whatever libcurl would answer |
| CurlOptions.StoreStringKeepsOtherSlots | src/curl-module.c:419-421 | storing one option's string leaves every other slot as it was |
| CurlOptions.ListOptEffect | src/curl-module.c:444-501 | the list setter never touches another slot; more than one argument, a non-array argument or a failed append leaves every slot alone; if libcurl refuses, the slot is left empty; on success the slot holds exactly the array's non-NULL strings, or nothing when there was no argument |
| CurlOptions.FunctionOptEffect | src/curl-module.c:354-393 | the callback setter succeeds iff there are two arguments, the first is a function, and libcurl accepts; only then is the callback/data pair replaced; a libcurl refusal raises nothing |
| CurlOptions.ReadRequested | src/curl-module.c:252 | the requested byte count is `size * nmemb` truncated to 32 bits, and is exact when the product fits |
| CurlOptions.ReadTransfer | src/curl-module.c:266-289 | the read callback copies iff the user returned a byte string; the copy is a prefix of it, is never longer than requested, and is all of it when it fits; NULL, another type or a failed call aborts |
| CurlHandles.Marked | src/curl-module.c:1307-1311 | setting or clearing the running bit changes no other bit |
| CurlHandles.Unmarked | src/curl-module.c:1339-1344 | clearing the running bit leaves it clear and leaves flags that did not carry it as they were |
| CurlHandles.UnmarkedForgetsMark | src/curl-module.c:1307-1344 | clearing the running bit after the first walk gives the same flags whether or not the bit had been set, which is why the second walk restores them |
| CurlHandles.CheckHandle | src/curl-module.c:292-306 | an easy handle passes iff it exists, is open and carries none of the given flags; a missing or closed handle is reported as closed, before the running check |
| CurlHandles.FirstFailureOk | src/curl-module.c:1094-1103 | the member loop of the multi guard succeeds iff every attached handle passes `check_handle`; otherwise it reports a closed or running handle |
| CurlHandles.WithoutContents | src/curl-module.c:1166-1186 | removing a handle that is absent leaves the list as it was; removing one that is present takes exactly one occurrence out, so the list is one shorter |
| CurlHandles.WithoutAt | src/curl-module.c:1166-1178 | unlinking a handle at its first position is the list with that position taken out |
| CurlHandles.SearchAfterFinds | src/curl-module.c:1168-1177 | the `prev` search finds a handle iff it is in the list, at its first position, and never reads through NULL once past the head |
| CurlHandles.SearchListCorrect | src/curl-module.c:1166-1177 | the search with the empty-list check finds a handle iff it is attached, at its first position |
| CurlHandles.RemoveFromEmptyMultiDerefsNull | src/curl-module.c:1166-1173 | as written, the search on an empty list reads through NULL; the corrected search answers "not found" there and agrees with the search as written on every non-empty list |
| CurlHandles.FirstStop | src/curl-module.c:1316-1334 | the drive loop stops at the first answer that is not "call again" or that is followed by an interrupt |
| CurlHandles.Drive | src/curl-module.c:1321-1337 | the drive loop returns the running count of the answer it stops at, and raises the native error exactly when that answer is a failure |
| CurlHandles.Easy.constructor | src/curl-module.c:833-886 | a new handle is open, unattached and not running, and its URL slot holds the URL; every other slot and list is empty |
| CurlHandles.Easy.Close | src/curl-module.c:905-924 | closing is refused for a closed or running handle and for one still attached to a multi handle; otherwise the handle is closed, and every later `check_handle` on it reports it closed |
| CurlHandles.Easy.Perform | src/curl-module.c:888-903 | perform sets the running bit around the transfer, so a re-entrant use is refused during it, and restores the flags whatever libcurl answers |
| CurlHandles.Easy.GetUrl | src/curl-module.c:927-937 | get-url succeeds iff the handle is open, and then gives the URL given at construction |
| CurlHandles.Easy.StoreStringOpt | src/curl-module.c:395-424 | the in-place store into `opt_strings` has exactly the effect of `StoreString` |
| CurlHandles.Easy.SetStringOpt | src/curl-module.c:426-442 | the string setter on the handle has exactly the effect of `StringOptEffect` |
| CurlHandles.Easy.SetListOpt | src/curl-module.c:444-501 | the list setter on the handle has exactly the effect of `ListOptEffect` |
| CurlHandles.Easy.SetFunctionOpt | src/curl-module.c:354-393 | the callback setter on the handle has exactly the effect of `FunctionOptEffect` |
| CurlHandles.Easy.SetOpt | src/curl-module.c:803-831 | `curl_setopt` is refused for a closed or running handle; otherwise the option's family in the corrected table (CURLOPT_SSLENGINE_DEFAULT sent to the integer setter) decides, with that family's effect, and an option outside the families is unsupported; the lifecycle fields never change |
| CurlHandles.Multi.NeverBusy | src/curl-module.c:1087-1092 | with `flags` never set, the multi guard never reports the busy state |
| CurlHandles.Multi.constructor | src/curl-module.c:1405-1428 | a new multi handle is open, with no members and zero flags |
| CurlHandles.Multi.CheckMulti | src/curl-module.c:1069-1106 | the multi guard succeeds iff the multi handle is open, has none of the flags, and every attached handle passes `check_handle` |
| CurlHandles.Multi.Length | src/curl-module.c:1430-1442 | the length is the number of attached handles; once the multi handle is closed, the guard raises the closed error and the result is -1 |
| CurlHandles.Multi.AddHandle | src/curl-module.c:1203-1241 | adding is refused for a closed or running easy handle, a failing multi guard, or a handle already attached anywhere, and then nothing changes; on success the handle is pushed at the head, points back to the multi handle and is held by it, and `length` grows by one; the list invariant is kept; only the handle's `multi`, `next` and hold change, so its options and callbacks stay |
| CurlHandles.Multi.RemoveInternal | src/curl-module.c:1108-1124 | the internal remove clears the handle's `multi` and `next`, drops the multi handle's hold and lowers `length`, even when libcurl fails |
| CurlHandles.Multi.RemoveHandle | src/curl-module.c:1153-1189 | with the corrected search (an empty list answers "not attached"), removing a handle that is not attached changes nothing and raises nothing; removing an attached one takes it out of the list, detaches it and lowers `length`, even when libcurl fails; no easy handle is closed; the list invariant is kept; of the easy handles only `multi`, `next` and the hold change, so options and callbacks stay |
| CurlHandles.Multi.FindLink | src/curl-module.c:1168-1177 | the `prev` loop reports the handle found iff it is attached, and then returns its predecessor; it finds exactly what the corrected search `SearchList` finds, at the same position |
| CurlHandles.Multi.Unlink | src/curl-module.c:1165-1180 | relinking around position `k` leaves the list without that position, with the invariant kept; of the easy handles only `multi`, `next` and the hold change |
| CurlHandles.Multi.CloseInternal | src/curl-module.c:1126-1141 | closing detaches every member (clearing `multi` and `next`, dropping the hold), does not close any of them, empties the list and closes the multi handle; it reports an error iff some native remove failed; of the easy handles only `multi`, `next` and the hold change |
| CurlHandles.Multi.DetachAll | src/curl-module.c:1130-1138 | the loop over the list detaches every member, front to back, changing only `multi`, `next` and the hold of each; it reports an error iff libcurl refused some removal, and `length` ends at zero |
| CurlHandles.Multi.Close | src/curl-module.c:1191-1201 | `curl_multi_close` is refused like every multi operation, changing nothing, and is otherwise the internal close; of the easy handles only `multi`, `next` and the hold change |
| CurlHandles.Multi.Perform | src/curl-module.c:1279-1348 | multi perform on an empty list is refused before any flag changes; otherwise every member runs with the running bit set, so a re-entrant multi operation and a re-entrant easy operation on any member are refused; a failed fdset gives -1; otherwise the result is the running count from the answer the loop stopped at; every member's flags are restored, and nothing but the members' flags is ever changed |
| CurlHandles.Multi.MarkRunning | src/curl-module.c:1307-1344 | each walk over the list sets or clears the running bit of every member and changes nothing else; after the setting walk `check_handle` refuses every member as running |

## Left out

- The libcurl calls are left out. They are foreign code, and each call is a
  success/failure parameter. Also left out:
  - libcurl's own state, for example the `CURLOPT_NOPROGRESS` change made
    when a progress callback is set;
  - the error text written to `errbuf`.
- The S-Lang value stack, popping and type conversion of arguments, and MMT
  creation and freeing. These belong to the host runtime. Arguments arrive
  already popped as `Arg` values, and an argument of the wrong type is
  `BadArgType`. The multi handle's hold on an easy handle is the counter
  `multiHolds`.
- The usage error of `curl_setopt` for fewer than two arguments, and the
  popping of the option as an integer. Options are `CurlOpt` values, grouped
  by the sections of the switch, and identifiers outside the table are
  `Unlisted`.
- `NUM_OPT_STRINGS` is `CURLOPT_LASTENTRY % 10000` of whichever libcurl
  headers the module is built with. It is a constructor parameter, required to
  exceed the largest string slot index (134). String option identifiers are
  those of the libcurl 7.14 headers.
- Failure paths of construction (allocation, `curl_easy_init`,
  `curl_multi_init`, the default option calls) are left out. Constructors
  model the successful path only.
- `do_select_on_multi` is left out because it is fd-set and `select` I/O with
  double arithmetic. Only the outcome of `curl_multi_fdset` is kept, as
  `fdsetOk`. A failing `select` counts as ready, so its answer does not
  change the model's result.
- The timeout argument of multi perform is a double. It is reduced to
  "positive or not" (`wait`).
- CurlHandles.Easy.SetOpt: dispatches through the corrected table, where
  CURLOPT_SSLENGINE_DEFAULT goes to the integer setter. As written that option
  always fails; `ClassifyAsWritten` and `SslEngineDefaultNeverSettable` keep
  that behaviour (see "## Findings").
- CurlHandles.Multi.RemoveHandle: on a multi handle with no attached handles
  it follows the corrected search and returns "not attached". As written the
  search reads through NULL there; `SearchAsWritten` and
  `RemoveFromEmptyMultiDerefsNull` keep that behaviour (see "## Findings").
- `Multi.Perform`: reports success when an interrupt stops the drive loop.
  Any error the interpreter raises there is outside the module.
- `Multi.Perform`: requires some answer of `curl_multi_perform` that stops
  the loop. The source loops for as long as libcurl keeps asking to be called
  again.
- The following are left out as callback machinery and host glue:
  - the write, header and progress trampolines and the execution of user
    callbacks;
  - `progress_function`, which works on doubles;
  - `multi_info_read`, `get_info_intrin` and `push_slist`, which are foreign
    accessors and value marshalling;
  - `curl_easy_escape` and `curl_easy_unescape`;
  - `global_init` and `global_cleanup`;
  - the constant tables and type registration;
  - the message formatting in `throw_curl_error` and `throw_multi_error`.
- Freeing of easy handles and multi handles by the host's reference counting
  is not modelled.
- String identity is content equality. S-Lang strings are interned, so the
  pointer comparison `old == str` compares contents.

## Findings

| source | as written | input that shows it | evidently intended | confidence | as-written member | corrected member |
|---|---|---|---|---|---|---|
| src/curl-module.c:1166-1173 | `prev = m->ez` is followed by `prev->next` without a NULL check | `curl_multi_remove_handle(m, e)` on a multi handle with no attached handles | report "not attached" and change nothing | high (not executed) | CurlHandles.RemoveFromEmptyMultiDerefsNull | CurlHandles.SearchListCorrect |
| src/curl-module.c:760-761 | CURLOPT_SSLENGINE_DEFAULT, a long option (identifier 90), is sent to `set_string_opt`; its slot index 90 - 10000 is negative, so it always fails: a string argument fails the slot-index check ("Unexpected Curl option value", lines 401-405), and any other argument fails to pop as a string (line 436) | `curl_setopt(c, CURLOPT_SSLENGINE_DEFAULT, 1)` (type error), or `curl_setopt(c, CURLOPT_SSLENGINE_DEFAULT, "e")` ("Unexpected Curl option value") | set it through the integer setter, default 1 | high (not executed) | CurlOptionTableFacts.SslEngineDefaultNeverSettable | CurlOptionTableFacts.StringSlotsDistinctAndInRange |
