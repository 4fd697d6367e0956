/** The handle lifecycle of the binding: easy handles (`Easy_Type`), multi
    handles (`Multi_Type`) and the intrusive singly-linked list through which a
    multi handle keeps its attached easy handles.  Every libcurl call is a
    boolean (or a sequence of outcomes) the caller supplies; the S-Lang
    reference that the multi handle keeps on an attached easy handle is the
    counter `Easy.multiHolds`. */
module CurlHandles {
  import opened CurlStatus
  import opened CurlOptionTable
  import opened CurlOptions

  /** The only flag bit the binding uses. */
  const PERFORM_RUNNING: bv32 := 1

  /** `flags` with the running bit set (`on`) or cleared. */
  function Marked(flags: bv32, on: bool): (r: bv32)
    ensures r & PERFORM_RUNNING == (if on then PERFORM_RUNNING else 0)
    ensures r & !PERFORM_RUNNING == flags & !PERFORM_RUNNING
    ensures !on ==> r == Unmarked(flags)
  {
    if on then flags | PERFORM_RUNNING else Unmarked(flags)
  }

  /** The flags with the running bit cleared, which leaves flags that did
      not carry it as they were. */
  function Unmarked(flags: bv32): (r: bv32)
    ensures r & PERFORM_RUNNING == 0
    ensures flags & PERFORM_RUNNING == 0 ==> r == flags
  {
    flags & !PERFORM_RUNNING
  }

  /** Clearing the running bit forgets whether it was set first. */
  lemma UnmarkedForgetsMark()
    ensures forall flags: bv32, on :: Unmarked(Marked(flags, on)) == Unmarked(flags)
  {
    forall flags: bv32, on: bool
      ensures Unmarked(Marked(flags, on)) == Unmarked(flags)
    {
      assert (flags | PERFORM_RUNNING) & !PERFORM_RUNNING == flags & !PERFORM_RUNNING;
    }
  }

  /** `check_handle`: an easy handle may be used when it exists, is open, and
      carries none of the flag bits the caller forbids.  A closed handle is
      reported before a running one. */
  function CheckHandle(e: Easy?, flags: bv32): (r: Status)
    reads e
    ensures r.Ok? <==> e != null && e.handle && e.flags & flags == 0
    ensures e == null || !e.handle ==> r == Err(EasyClosed)
    ensures r.Err? ==> r.error == EasyClosed || r.error == EasyRunning
  {
    if e == null || !e.handle then Err(EasyClosed)
    else if e.flags & flags != 0 then Err(EasyRunning)
    else Ok
  }

  /** `check_handle` refuses every handle of `ms` as running. */
  ghost predicate AllRefused(ms: seq<Easy>, flags: bv32)
    reads ms
  {
    forall i :: 0 <= i < |ms| ==> CheckHandle(ms[i], flags) == Err(EasyRunning)
  }

  /** The loop of `pop_multi_type` over the attached handles: the first one
      that fails `check_handle`, if any. */
  function FirstFailure(ms: seq<Easy>, flags: bv32): Status
    reads ms
  {
    if ms == [] then Ok
    else if CheckHandle(ms[0], flags).Err? then CheckHandle(ms[0], flags)
    else FirstFailure(ms[1..], flags)
  }

  lemma {:induction false} FirstFailureOk(ms: seq<Easy>, flags: bv32)
    ensures FirstFailure(ms, flags).Ok? <==> forall i :: 0 <= i < |ms| ==> CheckHandle(ms[i], flags).Ok?
    ensures FirstFailure(ms, flags).Err? ==> FirstFailure(ms, flags).error in {EasyClosed, EasyRunning}
  {
    if ms != [] {
      FirstFailureOk(ms[1..], flags);
      assert forall i :: 1 <= i < |ms| ==> ms[i] == ms[1..][i - 1];
    }
  }

  /** libcurl accepts the removal of every handle of `ms`. */
  predicate AllAccepted(ms: seq<Easy>, removeOk: Easy -> bool)
  {
    forall x :: x in ms ==> removeOk(x)
  }

  /** libcurl accepts the removal of the first `n` handles of `ms`. */
  predicate AcceptedBefore(ms: seq<Easy>, n: int, removeOk: Easy -> bool)
  {
    forall j :: 0 <= j < n && j < |ms| ==> removeOk(ms[j])
  }

  lemma AcceptedBeforeAll(ms: seq<Easy>, removeOk: Easy -> bool)
    ensures AcceptedBefore(ms, |ms|, removeOk) <==> AllAccepted(ms, removeOk)
  {
    if AcceptedBefore(ms, |ms|, removeOk) {
      forall x | x in ms ensures removeOk(x) {
        var k :| 0 <= k < |ms| && ms[k] == x;
      }
    }
  }

  /** The handle linked after position `i` of a list, or null after the last. */
  function Successor(ms: seq<Easy>, i: int): Easy?
    requires 0 <= i < |ms|
  {
    if i + 1 < |ms| then ms[i + 1] else null
  }

  /** `ms` with its first occurrence of `e` taken out. */
  function Without(ms: seq<Easy>, e: Easy): seq<Easy>
  {
    if ms == [] then []
    else if ms[0] == e then ms[1..]
    else [ms[0]] + Without(ms[1..], e)
  }

  /** Taking out a handle that occurs shortens the list by one and leaves
      every other handle; taking out one that does not changes nothing. */
  lemma {:induction false} WithoutContents(ms: seq<Easy>, e: Easy)
    ensures e !in ms ==> Without(ms, e) == ms
    ensures multiset(Without(ms, e)) == multiset(ms) - multiset{e}
    ensures e in ms ==> |Without(ms, e)| == |ms| - 1
  {
    if ms != [] {
      assert ms == [ms[0]] + ms[1..];
      assert multiset(ms) == multiset{ms[0]} + multiset(ms[1..]);
      if ms[0] != e {
        WithoutContents(ms[1..], e);
        assert Without(ms, e) == [ms[0]] + Without(ms[1..], e);
      }
    }
  }

  lemma {:induction false} WithoutAt(ms: seq<Easy>, e: Easy, k: int)
    requires 0 <= k < |ms| && ms[k] == e && e !in ms[..k]
    ensures Without(ms, e) == ms[..k] + ms[k + 1..]
  {
    if k > 0 {
      assert ms[0] in ms[..k];
      assert ms[1..][..k - 1] == ms[1..k];
      assert e !in ms[1..][..k - 1];
      WithoutAt(ms[1..], e, k - 1);
      assert ms[..k] == [ms[0]] + ms[1..k];
      assert ms[1..][k..] == ms[k + 1..];
    }
  }

  // ---------------------------------------------------------------------
  // The search of multi_remove_handle for the link before a handle

  /** What the search for `ez` in the list finds: its position, no position,
      or a read through the NULL `prev` pointer. */
  datatype Search = Found(at: nat) | NotFound | NullDeref

  /** The search as written: `prev` starts at the head; the head is compared
      with `ez`, and otherwise `prev->next` is read, which on an empty list
      dereferences NULL. */
  function SearchAsWritten(ms: seq<Easy>, e: Easy): (r: Search)
  {
    if ms == [] then NullDeref
    else if ms[0] == e then Found(0)
    else SearchAfter(ms, e, 0)
  }

  /** The `while (1)` loop: `prev` is `ms[j]`, and `ms[j + 1]` is compared. */
  function SearchAfter(ms: seq<Easy>, e: Easy, j: nat): (r: Search)
    requires j < |ms|
    ensures !r.NullDeref?
    decreases |ms| - j
  {
    if j + 1 == |ms| then NotFound
    else if ms[j + 1] == e then Found(j + 1)
    else SearchAfter(ms, e, j + 1)
  }

  /** The search the evidently intended behaviour calls for: an empty list
      does not hold the handle. */
  function SearchList(ms: seq<Easy>, e: Easy): (r: Search)
    ensures !r.NullDeref?
  {
    if ms == [] then NotFound else SearchAsWritten(ms, e)
  }

  lemma {:induction false} SearchAfterFinds(ms: seq<Easy>, e: Easy, j: nat)
    requires j < |ms| && e !in ms[..j + 1]
    ensures SearchAfter(ms, e, j).Found? <==> e in ms
    ensures SearchAfter(ms, e, j).Found? ==>
              SearchAfter(ms, e, j).at < |ms| && ms[SearchAfter(ms, e, j).at] == e
              && e !in ms[..SearchAfter(ms, e, j).at]
    ensures !SearchAfter(ms, e, j).NullDeref?
    decreases |ms| - j
  {
    if j + 1 == |ms| {
      assert ms[..j + 1] == ms;
    } else if ms[j + 1] != e {
      assert ms[..j + 2] == ms[..j + 1] + [ms[j + 1]];
      SearchAfterFinds(ms, e, j + 1);
    }
  }

  /** The corrected search finds a handle exactly when it is in the list, at
      its first position, and never reads through NULL. */
  lemma SearchListCorrect(ms: seq<Easy>, e: Easy)
    ensures SearchList(ms, e).Found? <==> e in ms
    ensures SearchList(ms, e).Found? ==>
              SearchList(ms, e).at < |ms| && ms[SearchList(ms, e).at] == e
              && e !in ms[..SearchList(ms, e).at]
  {
    if ms != [] && ms[0] != e {
      SearchAfterFinds(ms, e, 0);
    }
  }

  /** As written, removing any handle from a multi handle that has none reads
      through a NULL pointer; on a non-empty list the two searches agree. */
  lemma RemoveFromEmptyMultiDerefsNull(ms: seq<Easy>, e: Easy)
    ensures SearchAsWritten([], e) == NullDeref
    ensures SearchList([], e) == NotFound
    ensures ms != [] ==> SearchList(ms, e) == SearchAsWritten(ms, e)
  {
  }

  // ---------------------------------------------------------------------
  // Easy handles

  class Easy {
    /** The native handle is open (`handle != NULL`). */
    var handle: bool
    /** The URL given when the handle was made (`ez->url`). */
    const url: string
    var flags: bv32
    /** The multi handle this one is attached to, or null. */
    var multi: Multi?
    /** The next handle in the attaching multi handle's list. */
    var next: Easy?
    /** The references multi handles hold on this handle's S-Lang object. */
    var multiHolds: nat
    /** `opt_strings`: one retained string per string option, by slot index. */
    const optStrings: array<Option<string>>
    /** The eight string-list slots; a slot that is not a key is a NULL list. */
    var lists: map<ListSlot, seq<string>>
    /** The write, read, header and progress callbacks and their data. */
    var callbacks: map<CallbackKind, Callback>

    /** A multi handle holds this handle exactly while it is attached, and
        every string option of the table has a slot. */
    ghost predicate Valid()
      reads this
    {
      multiHolds == (if multi == null then 0 else 1) && optStrings.Length > MaxStringIndex
    }

    /** `curl_new` when every libcurl call succeeds: an open, unattached
        handle whose URL slot holds the URL.  `numOptStrings` is
        `CURLOPT_LASTENTRY % 10000` of the libcurl headers. */
    constructor (url: string, numOptStrings: nat)
      requires numOptStrings > MaxStringIndex
      ensures Valid() && fresh(optStrings)
      ensures handle && this.url == url && flags == 0 && multi == null && next == null
      ensures optStrings.Length == numOptStrings
      ensures forall i :: 0 <= i < numOptStrings ==>
                optStrings[i] == if i == SlotIndex(Classify(Network(Url)).code) then Some(url) else None
      ensures lists == map[] && callbacks == map[]
    {
      handle := true;
      this.url := url;
      flags := 0;
      multi := null;
      next := null;
      multiHolds := 0;
      optStrings := new Option<string>[numOptStrings](i => if i == SlotIndex(Classify(Network(Url)).code) then Some(url) else None);
      lists := map[];
      callbacks := map[];
    }

    /** `curl_close`: refused while running, when already closed, or while
        attached to a multi handle; otherwise the native handle is released
        and every later use of the handle fails. */
    method Close() returns (st: Status)
      modifies this`handle
      ensures old(CheckHandle(this, PERFORM_RUNNING)).Err? ==>
                st == old(CheckHandle(this, PERFORM_RUNNING)) && handle == old(handle)
      ensures old(CheckHandle(this, PERFORM_RUNNING)).Ok? && multi != null ==>
                st == Err(StillAttached) && handle == old(handle)
      ensures old(CheckHandle(this, PERFORM_RUNNING)).Ok? && multi == null ==>
                st == Ok && !handle && forall f :: CheckHandle(this, f) == Err(EasyClosed)
    {
      st := CheckHandle(this, PERFORM_RUNNING);
      if st.Err? {
        return;
      }
      if multi != null {
        return Err(StillAttached);
      }
      handle := false;
    }

    /** `curl_perform`: the running bit is set around the transfer, so a
        callback that re-enters the binding during it (`during`) is refused,
        and it is cleared afterwards whatever libcurl reports. */
    method Perform(nativeOk: bool) returns (st: Status, ghost during: Status)
      modifies this`flags
      ensures flags == old(flags)
      ensures old(CheckHandle(this, PERFORM_RUNNING)).Err? ==> st == old(CheckHandle(this, PERFORM_RUNNING))
      ensures old(CheckHandle(this, PERFORM_RUNNING)).Ok? ==>
                during == Err(EasyRunning) && st == if nativeOk then Ok else Err(NativeError)
    {
      st := CheckHandle(this, PERFORM_RUNNING);
      during := st;
      if st.Err? {
        return;
      }
      flags := flags | PERFORM_RUNNING;
      during := CheckHandle(this, PERFORM_RUNNING);
      st := if nativeOk then Ok else Err(NativeError);
      flags := flags & !PERFORM_RUNNING;
    }

    /** `curl_get_url`: the URL the handle was made with, while it is open. */
    method GetUrl() returns (st: Status, u: string)
      ensures st.Ok? <==> handle
      ensures st.Ok? ==> u == url
    {
      st := CheckHandle(this, 0);
      u := if st.Ok? then url else [];
    }

    /** `set_string_opt_internal`. */
    method StoreStringOpt(code: int, s: string, nativeOk: bool) returns (st: Status)
      modifies optStrings
      ensures (st, optStrings[..]) == StoreString(old(optStrings[..]), code, s, nativeOk)
    {
      var i := SlotIndex(code);
      if i < 0 || i >= optStrings.Length {
        return Err(BadOptionIndex);
      }
      if optStrings[i] == Some(s) {
        return Ok;
      }
      if !nativeOk {
        return Err(NativeError);
      }
      optStrings[i] := Some(s);
      st := Ok;
    }

    /** `set_string_opt`. */
    method SetStringOpt(code: int, args: seq<Arg>, nativeOk: bool) returns (st: Status)
      modifies optStrings
      ensures (st, optStrings[..]) == StringOptEffect(old(optStrings[..]), code, args, nativeOk)
    {
      if |args| != 1 {
        return Err(BadArgCount);
      }
      if !args[0].Str? {
        return Err(BadArgType);
      }
      st := StoreStringOpt(code, args[0].s, nativeOk);
    }

    /** `set_strlist_opt`. */
    method SetListOpt(slot: ListSlot, args: seq<Arg>, appendOk: nat -> bool, nativeOk: bool)
      returns (st: Status)
      modifies this`lists
      ensures (st, lists) == ListOptEffect(old(lists), slot, args, appendOk, nativeOk)
    {
      if |args| > 1 {
        return Err(BadArgCount);
      }
      var list: seq<string> := [];
      if |args| == 1 {
        if !args[0].StrArray? {
          return Err(BadArgType);
        }
        var built := BuildList(args[0].elems, appendOk);
        if built.AppendFailed? {
          return Err(ListBuildFailed);
        }
        list := built.list;
      }
      lists := lists[slot := []];
      if !nativeOk {
        return Err(NativeError);
      }
      lists := lists[slot := list];
      assert lists == old(lists)[slot := list];
      st := Ok;
    }

    /** `set_function_opt`. */
    method SetFunctionOpt(kind: CallbackKind, args: seq<Arg>, nativeOk: bool) returns (st: Status)
      modifies this`callbacks
      ensures (st, callbacks) == FunctionOptEffect(old(callbacks), kind, args, nativeOk)
    {
      if |args| != 2 {
        return Err(BadArgCount);
      }
      if !args[0].Func? {
        return Err(BadArgType);
      }
      if !nativeOk {
        return Err(NativeUnreported);
      }
      callbacks := callbacks[kind := Callback(args[0].f, args[1])];
      st := Ok;
    }

    /** `curl_setopt`: refused while running or once closed; otherwise the
        option's setter family decides.  `appendOk` and `nativeOk` are the
        outcomes of the libcurl calls the setter makes. */
    method SetOpt(opt: CurlOpt, args: seq<Arg>, appendOk: nat -> bool, nativeOk: bool) returns (st: Status)
      modifies this, optStrings
      ensures handle == old(handle) && flags == old(flags) && multi == old(multi) && next == old(next)
      ensures multiHolds == old(multiHolds)
      ensures old(CheckHandle(this, PERFORM_RUNNING)).Err? ==>
                st == old(CheckHandle(this, PERFORM_RUNNING)) && unchanged(this, optStrings)
      ensures old(CheckHandle(this, PERFORM_RUNNING)).Ok? && Classify(opt).Unsupported? ==>
                st == Err(UnsupportedOption) && unchanged(this, optStrings)
      ensures old(CheckHandle(this, PERFORM_RUNNING)).Ok? && Classify(opt).LongSetter? ==>
                st == LongOptEffect(args, Classify(opt).useDefault, Classify(opt).default, nativeOk)
                && unchanged(this, optStrings)
      ensures old(CheckHandle(this, PERFORM_RUNNING)).Ok? && Classify(opt).StringSetter? ==>
                (st, optStrings[..]) == StringOptEffect(old(optStrings[..]), Classify(opt).code, args, nativeOk)
                && unchanged(this)
      ensures old(CheckHandle(this, PERFORM_RUNNING)).Ok? && Classify(opt).ListSetter? ==>
                (st, lists) == ListOptEffect(old(lists), Classify(opt).slot, args, appendOk, nativeOk)
                && callbacks == old(callbacks) && unchanged(optStrings)
      ensures old(CheckHandle(this, PERFORM_RUNNING)).Ok? && Classify(opt).FunctionSetter? ==>
                (st, callbacks) == FunctionOptEffect(old(callbacks), Classify(opt).kind, args, nativeOk)
                && lists == old(lists) && unchanged(optStrings)
    {
      st := CheckHandle(this, PERFORM_RUNNING);
      if st.Err? {
        return;
      }
      match Classify(opt)
      case LongSetter(useDefault, default) =>
        st := LongOptEffect(args, useDefault, default, nativeOk);
      case FunctionSetter(kind) =>
        st := SetFunctionOpt(kind, args, nativeOk);
      case StringSetter(code) =>
        st := SetStringOpt(code, args, nativeOk);
      case ListSetter(slot) =>
        st := SetListOpt(slot, args, appendOk, nativeOk);
      case Unsupported =>
        st := Err(UnsupportedOption);
    }
  }

  // ---------------------------------------------------------------------
  // Multi handles

  /** One answer of `curl_multi_perform`, with the running count it wrote and
      whether `SLang_handle_interrupt` reported an interrupt after it. */
  datatype MultiCode = CallMultiPerform | MultiOk | MultiFailed
  datatype MultiStep = MultiStep(code: MultiCode, running: int, interrupted: bool)

  /** The drive loop stops after this answer. */
  predicate Stops(s: MultiStep)
  {
    s.code != CallMultiPerform || s.interrupted
  }

  /** The answer the drive loop stops at: the first that stops it. */
  function FirstStop(steps: seq<MultiStep>): (k: nat)
    requires exists i :: 0 <= i < |steps| && Stops(steps[i])
    ensures k < |steps| && Stops(steps[k])
    ensures forall j :: 0 <= j < k ==> !Stops(steps[j])
  {
    if Stops(steps[0]) then 0
    else
      var i :| 0 <= i < |steps| && Stops(steps[i]);
      assert 0 <= i - 1 < |steps[1..]| && Stops(steps[1..][i - 1]);
      1 + FirstStop(steps[1..])
  }

  /** The error the drive loop raises for the answer it stopped at. */
  function StepStatus(s: MultiStep): Status
  {
    if s.code == MultiFailed then Err(NativeError) else Ok
  }

  /** The drive loop of `curl_multi_perform`: call again while libcurl asks
      for it and no interrupt is pending; stop at the first other answer,
      raising the native error for a failure.  The running count is the one
      the stopping answer wrote. */
  method Drive(steps: seq<MultiStep>) returns (running: int, st: Status)
    requires exists i :: 0 <= i < |steps| && Stops(steps[i])
    ensures running == steps[FirstStop(steps)].running
    ensures st == StepStatus(steps[FirstStop(steps)])
    ensures st.Err? <==> steps[FirstStop(steps)].code == MultiFailed
  {
    st := Ok;
    var n := 0;
    while true
      invariant 0 <= n <= FirstStop(steps)
      invariant st == Ok
      decreases FirstStop(steps) - n
    {
      var step := steps[n];
      running := step.running;
      if step.code == CallMultiPerform {
        if step.interrupted {
          break;
        }
        n := n + 1;
        continue;
      }
      if step.code == MultiOk {
        break;
      }
      st := Err(NativeError);
      break;
    }
    assert n == FirstStop(steps);
  }

  class Multi {
    /** The native multi handle is open (`mhandle != NULL`). */
    var mhandle: bool
    /** Head of the list of attached easy handles. */
    var ez: Easy?
    /** `m->flags`: starts at zero and nothing in the binding sets it. */
    var flags: bv32
    var length: int
    /** The attached handles, in list order from `ez`. */
    ghost var members: seq<Easy>

    /** The list from `ez` through the `next` links is `members`, without
        repeats; `length` counts it; every member points back here, is held
        by this multi handle and is open; a closed multi handle has none. */
    ghost predicate Valid()
      reads this, members
    {
      && length == |members|
      && flags == 0
      && (!mhandle ==> members == [])
      && ez == (if members == [] then null else members[0])
      && (forall i {:trigger members[i].next} :: 0 <= i < |members| ==>
            members[i].next == Successor(members, i))
      && (forall i :: 0 <= i < |members| ==>
            members[i].multi == this && members[i].multiHolds == 1 && members[i].handle)
      && (forall i, j :: 0 <= i < j < |members| ==> members[i] != members[j])
    }

    /** What `pop_multi_type` decides for this multi handle. */
    ghost function Guard(f: bv32): Status
      reads this, members
    {
      if !mhandle then Err(MultiClosed)
      else if flags & f != 0 then Err(MultiBusy)
      else FirstFailure(members, f)
    }

    /** Nothing sets `m->flags`, so the multi guard never reports the busy
        state: it fails only for a closed multi handle or for one of its
        attached handles. */
    lemma NeverBusy(f: bv32)
      requires Valid()
      ensures Guard(f) != Err(MultiBusy)
    {
      FirstFailureOk(members, f);
    }

    /** `curl_multi_new` when libcurl succeeds. */
    constructor ()
      ensures Valid() && mhandle && members == [] && flags == 0
    {
      mhandle := true;
      ez := null;
      flags := 0;
      length := 0;
      members := [];
    }

    /** `pop_multi_type` once the object is popped: open, none of the given
        flags, and every attached handle passes `check_handle`. */
    method CheckMulti(f: bv32) returns (st: Status)
      requires Valid()
      ensures st == Guard(f)
      ensures st.Ok? <==> mhandle && flags & f == 0
                          && forall i :: 0 <= i < |members| ==> CheckHandle(members[i], f).Ok?
    {
      FirstFailureOk(members, f);
      if !mhandle {
        return Err(MultiClosed);
      }
      if flags & f != 0 {
        return Err(MultiBusy);
      }
      var e := ez;
      ghost var i := 0;
      while e != null
        invariant 0 <= i <= |members|
        invariant e == if i < |members| then members[i] else null
        invariant FirstFailure(members, f) == FirstFailure(members[i..], f)
        decreases |members| - i
      {
        var c := CheckHandle(e, f);
        if c.Err? {
          return c;
        }
        assert members[i..][1..] == members[i + 1..];
        e := e.next;
        i := i + 1;
      }
      st := Ok;
    }

    /** `curl_multi_length`: the number of attached handles; once closed,
        the multi guard's error and -1. */
    method Length() returns (st: Status, r: int)
      requires Valid()
      ensures st == Guard(0)
      ensures st == (if mhandle then Ok else Err(MultiClosed))
      ensures r == if mhandle then |members| else -1
    {
      NeverBusy(0);
      st := CheckMulti(0);
      if st.Err? {
        return st, -1;
      }
      r := length;
    }

    /** The checks `curl_multi_add_handle` makes before calling libcurl, in order. */
    ghost function AddCheck(e: Easy): Status
      reads this, members, e
    {
      if CheckHandle(e, PERFORM_RUNNING).Err? then CheckHandle(e, PERFORM_RUNNING)
      else if Guard(PERFORM_RUNNING).Err? then Guard(PERFORM_RUNNING)
      else if e.multi != null then Err(AlreadyAttached)
      else Ok
    }

    /** `curl_multi_add_handle`: a handle already attached to any multi handle
        is refused; on success it is pushed at the head of the list, points
        back here, and is held by this multi handle. */
    method AddHandle(e: Easy, nativeOk: bool) returns (st: Status)
      requires Valid() && e.Valid()
      modifies this, e`multi, e`next, e`multiHolds
      ensures Valid() && e.Valid()
      ensures old(AddCheck(e)).Err? ==> st == old(AddCheck(e)) && unchanged(this, e)
      ensures old(AddCheck(e)).Ok? && !nativeOk ==> st == Err(NativeError) && unchanged(this, e)
      ensures old(AddCheck(e)).Ok? && nativeOk ==>
                && st == Ok
                && members == [e] + old(members) && length == old(length) + 1
                && mhandle == old(mhandle) && flags == old(flags)
                && e.multi == this && e.next == old(ez) && e.multiHolds == old(e.multiHolds) + 1
                && e.handle == old(e.handle) && e.flags == old(e.flags)
    {
      st := CheckHandle(e, PERFORM_RUNNING);
      if st.Err? {
        return;
      }
      st := CheckMulti(PERFORM_RUNNING);
      if st.Err? {
        return;
      }
      if e.multi != null {
        return Err(AlreadyAttached);
      }
      if !nativeOk {
        return Err(NativeError);
      }
      assert forall i :: 0 <= i < |members| ==> members[i] != e;
      e.multi := this;
      e.next := ez;
      ez := e;
      length := length + 1;
      e.multiHolds := e.multiHolds + 1;
      members := [e] + members;
      assert forall i :: 1 <= i < |members| ==> members[i] == old(members)[i - 1];
      assert forall i :: 1 <= i < |members| ==> Successor(members, i) == Successor(old(members), i - 1);
    }

    /** `multi_remove_handle_internal`: libcurl lets go of the handle, which
        no longer points at this multi handle, loses this multi handle's
        hold, and is uncounted, whether or not libcurl succeeded. */
    method RemoveInternal(e: Easy, nativeOk: bool) returns (st: Status)
      requires e.multiHolds >= 1
      modifies this`length, e`multi, e`next, e`multiHolds
      ensures e.multi == null && e.next == null && e.multiHolds == old(e.multiHolds) - 1
      ensures length == old(length) - 1
      ensures st == if nativeOk then Ok else Err(NativeError)
    {
      e.multi := null;
      e.next := null;
      e.multiHolds := e.multiHolds - 1;
      length := length - 1;
      st := if nativeOk then Ok else Err(NativeError);
    }

    /** The checks `curl_multi_remove_handle` makes before searching, in order. */
    ghost function RemoveCheck(e: Easy): Status
      reads this, members, e
    {
      if CheckHandle(e, PERFORM_RUNNING).Err? then CheckHandle(e, PERFORM_RUNNING)
      else Guard(PERFORM_RUNNING)
    }

    /** `curl_multi_remove_handle`: a handle that is not in the list changes
        nothing and raises no error; a handle that is is unlinked and detached,
        even when libcurl reports a failure.  An empty list counts as not
        holding the handle. */
    method RemoveHandle(e: Easy, nativeOk: bool) returns (st: Status)
      requires Valid() && e.Valid()
      modifies this, members`multi, members`next, members`multiHolds
      ensures Valid() && e.Valid()
      ensures forall x :: x in old(members) ==> x.handle == old(x.handle) && x.flags == old(x.flags)
      ensures old(RemoveCheck(e)).Err? ==>
                st == old(RemoveCheck(e)) && unchanged(this, e) && unchanged(members)
      ensures old(RemoveCheck(e)).Ok? && e !in old(members) ==>
                st == Ok && unchanged(this, e) && unchanged(members)
      ensures old(RemoveCheck(e)).Ok? && e in old(members) ==>
                && st == (if nativeOk then Ok else Err(NativeError))
                && members == Without(old(members), e) && length == old(length) - 1
                && mhandle == old(mhandle) && flags == old(flags)
                && e.multi == null && e.next == null && e.multiHolds == old(e.multiHolds) - 1
                && e.handle == old(e.handle) && e.flags == old(e.flags)
    {
      st := CheckHandle(e, PERFORM_RUNNING);
      if st.Err? {
        return;
      }
      st := CheckMulti(PERFORM_RUNNING);
      if st.Err? {
        return;
      }
      if ez == null {
        // as written, the search below would read prev->next through NULL here
        return;
      }
      var prev: Easy? := null;
      ghost var k := 0;
      if ez != e {
        var found;
        prev, found, k := FindLink(e);
        if !found {
          return;
        }
      }
      WithoutAt(members, e, k);
      st := Unlink(e, prev, k, nativeOk);
    }

    /** The search loop of `curl_multi_remove_handle`: from the head, follow
        `next` until the link after `prev` is `e` (position `k`) or the list
        ends (`k` is the length, and `e` is not attached here). */
    method FindLink(e: Easy) returns (prev: Easy, found: bool, ghost k: int)
      requires Valid() && members != [] && members[0] != e
      ensures found <==> e in members
      ensures 0 < k <= |members| && e !in members[..k]
      ensures found ==> k < |members| && members[k] == e && prev == members[k - 1]
      ensures found <==> SearchList(members, e).Found?
      ensures found ==> k == SearchList(members, e).at
    {
      SearchListCorrect(members, e);
      prev := ez;
      ghost var j := 0;
      while true
        invariant 0 <= j < |members|
        invariant prev == members[j]
        invariant e !in members[..j + 1]
        decreases |members| - j
      {
        if prev.next == null {
          assert members[..j + 1] == members;
          return prev, false, j + 1;
        }
        if prev.next == e {
          return prev, true, j + 1;
        }
        assert members[..j + 2] == members[..j + 1] + [members[j + 1]];
        prev := prev.next;
        j := j + 1;
      }
    }

    /** Unlinks the attached handle `e` at position `k`, whose predecessor is
        `prev` (null at the head), then detaches it. */
    method Unlink(e: Easy, prev: Easy?, ghost k: int, nativeOk: bool) returns (st: Status)
      requires Valid() && 0 <= k < |members| && members[k] == e
      requires prev == if k == 0 then null else members[k - 1]
      modifies this, members`multi, members`next, members`multiHolds
      ensures Valid()
      ensures members == old(members)[..k] + old(members)[k + 1..] && length == old(length) - 1
      ensures mhandle == old(mhandle) && flags == old(flags)
      ensures e.multi == null && e.next == null && e.multiHolds == old(e.multiHolds) - 1
      ensures forall x :: x in old(members) ==> x.handle == old(x.handle) && x.flags == old(x.flags)
      ensures st == if nativeOk then Ok else Err(NativeError)
    {
      ghost var ms := members;
      ghost var rest := ms[..k] + ms[k + 1..];
      assert forall i :: 0 <= i < |rest| ==> rest[i] == if i < k then ms[i] else ms[i + 1];
      assert forall i :: 0 <= i < |rest| ==> rest[i] != e;
      if prev == null {
        ez := e.next;
      } else {
        prev.next := e.next;
      }
      members := rest;
      st := RemoveInternal(e, nativeOk);
    }

    /** `multi_close_internal`: every attached handle is detached (with
        `removeOk(x)` the answer of libcurl for handle `x`), none of them is
        closed, the list is emptied and the native multi handle released. */
    method CloseInternal(removeOk: Easy -> bool) returns (st: Status)
      requires Valid()
      modifies this, members`multi, members`next, members`multiHolds
      ensures Valid() && members == [] && ez == null && length == 0 && !mhandle && flags == old(flags)
      ensures forall x :: x in old(members) ==>
                x.multi == null && x.next == null && x.multiHolds == 0
                && x.handle == old(x.handle) && x.flags == old(x.flags)
      ensures st == if AllAccepted(old(members), removeOk) then Ok else Err(NativeError)
    {
      st := DetachAll(ez, members, removeOk);
      ez := null;
      mhandle := false;
      members := [];
    }

    /** The loop of `multi_close_internal` over the list `ms` that starts at
        `first`: every handle, front to back, is detached; a failure is not
        reported at once but turns the result into an error. */
    method DetachAll(first: Easy?, ghost ms: seq<Easy>, removeOk: Easy -> bool) returns (st: Status)
      requires first == if ms == [] then null else ms[0]
      requires length == |ms|
      requires forall j {:trigger ms[j].next} :: 0 <= j < |ms| ==> ms[j].next == Successor(ms, j)
      requires forall j :: 0 <= j < |ms| ==> ms[j].multiHolds == 1
      requires forall a, b :: 0 <= a < b < |ms| ==> ms[a] != ms[b]
      modifies this`length, ms`multi, ms`next, ms`multiHolds
      ensures length == 0
      ensures forall x :: x in ms ==> x.multi == null && x.next == null && x.multiHolds == 0
      ensures st == if AllAccepted(ms, removeOk) then Ok else Err(NativeError)
    {
      var e := first;
      ghost var i := 0;
      st := Ok;
      while e != null
        invariant 0 <= i <= |ms|
        invariant e == if i < |ms| then ms[i] else null
        invariant length == |ms| - i
        invariant forall j :: 0 <= j < i ==>
                    ms[j].multi == null && ms[j].next == null && ms[j].multiHolds == 0
        invariant forall j :: i <= j < |ms| ==> ms[j].multiHolds == 1
        invariant forall j {:trigger ms[j].next} :: i <= j < |ms| ==> ms[j].next == Successor(ms, j)
        invariant st == if AcceptedBefore(ms, i, removeOk) then Ok else Err(NativeError)
        decreases |ms| - i
      {
        var nxt := e.next;
        var s := RemoveInternal(e, removeOk(e));
        if s.Err? {
          st := s;
        }
        e := nxt;
        i := i + 1;
      }
      AcceptedBeforeAll(ms, removeOk);
    }

    /** `curl_multi_close`: refused like every multi operation; otherwise
        `multi_close_internal`. */
    method Close(removeOk: Easy -> bool) returns (st: Status)
      requires Valid()
      modifies this, members`multi, members`next, members`multiHolds
      ensures Valid()
      ensures old(Guard(PERFORM_RUNNING)).Err? ==>
                st == old(Guard(PERFORM_RUNNING)) && unchanged(this) && unchanged(members)
      ensures old(Guard(PERFORM_RUNNING)).Ok? ==>
                && members == [] && length == 0 && !mhandle
                && (forall x :: x in old(members) ==>
                      x.multi == null && x.next == null && x.multiHolds == 0
                      && x.handle == old(x.handle) && x.flags == old(x.flags))
                && st == if AllAccepted(old(members), removeOk) then Ok else Err(NativeError)
    {
      st := CheckMulti(PERFORM_RUNNING);
      if st.Err? {
        return;
      }
      st := CloseInternal(removeOk);
    }

    /** `curl_multi_perform`.  `wait` is a positive timeout argument and
        `fdsetOk` the answer of `curl_multi_fdset` when it is polled; `steps`
        are the answers of `curl_multi_perform`.  An empty list is refused
        before any flag changes; otherwise every attached handle runs with the
        running bit set, so that a re-entrant multi operation (`during`) and
        a re-entrant easy operation on any member (`duringEach`) are refused,
        and gets its flags back afterwards. */
    method Perform(wait: bool, fdsetOk: bool, steps: seq<MultiStep>)
      returns (running: int, st: Status, ghost during: Status, ghost duringEach: bool)
      requires Valid()
      requires exists i :: 0 <= i < |steps| && Stops(steps[i])
      modifies members`flags
      ensures Valid()
      ensures forall j :: 0 <= j < |members| ==> members[j].flags == old(members[j].flags)
      ensures old(Guard(PERFORM_RUNNING)).Err? ==> running == -1 && st == old(Guard(PERFORM_RUNNING))
      ensures old(Guard(PERFORM_RUNNING)).Ok? && members == [] ==> running == -1 && st == Err(NoHandles)
      ensures old(Guard(PERFORM_RUNNING)).Ok? && members != [] ==>
                && during == Err(EasyRunning) && duringEach
                && (wait && !fdsetOk ==> running == -1 && st == Err(NativeError))
                && (!(wait && !fdsetOk) ==>
                      running == steps[FirstStop(steps)].running && st == StepStatus(steps[FirstStop(steps)]))
    {
      during := Ok;
      duringEach := false;
      running := -1;
      st := CheckMulti(PERFORM_RUNNING);
      if st.Err? {
        return;
      }
      if ez == null {
        st := Err(NoHandles);
        return;
      }
      MarkRunning(true);
      during := Guard(PERFORM_RUNNING);
      duringEach := AllRefused(members, PERFORM_RUNNING);
      running := 0;
      if wait && !fdsetOk {
        running := -1;
        st := Err(NativeError);
      }
      if running == 0 {
        running, st := Drive(steps);
      }
      MarkRunning(false);
      UnmarkedForgetsMark();
    }

    /** The two walks of `curl_multi_perform` over the list: set (`on`) or
        clear the running bit of every attached handle, touching nothing
        else. */
    method MarkRunning(on: bool)
      requires Valid()
      modifies members`flags
      ensures Valid() && members == old(members)
      ensures forall j :: 0 <= j < |members| ==>
                members[j].flags == Marked(old(members[j].flags), on)
      ensures on ==> AllRefused(members, PERFORM_RUNNING)
    {
      var e := ez;
      ghost var i := 0;
      while e != null
        invariant 0 <= i <= |members|
        invariant e == if i < |members| then members[i] else null
        invariant forall j :: 0 <= j < i ==>
                    members[j].flags == Marked(old(members[j].flags), on)
        invariant forall j :: i <= j < |members| ==> members[j].flags == old(members[j].flags)
        decreases |members| - i
      {
        e.flags := Marked(e.flags, on);
        e := e.next;
        i := i + 1;
      }
    }
  }
}
