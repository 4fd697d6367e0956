/** The option setters of an easy handle as functions on the stored state:
    the argument rule of the integer setter, the slot store of the string
    setter, the list built by the string-list setter, the callback setter, and
    the byte cap of the read callback.  The methods that store into a handle
    are in `CurlHandles.Easy`. */
module CurlOptions {
  import opened CurlStatus
  import opened CurlOptionTable

  // ---------------------------------------------------------------------
  // Arguments of curl_setopt after the handle and the option

  /** An S-Lang value passed to `curl_setopt`: a number, a string, an array of
      strings (whose elements may be NULL), a function reference, or NULL. */
  datatype Arg = Num(n: int) | Str(s: string) | StrArray(elems: seq<Option<string>>) | Func(f: nat) | Null

  datatype LongArg = LongValue(v: int) | LongRejected(error: Error)

  /** The value `set_long_opt` hands to libcurl: none or one numeric argument;
      with none, the default, which only options marked use-default accept. */
  function LongOptValue(args: seq<Arg>, useDefault: bool, default: int): (r: LongArg)
    ensures r.LongValue? <==> (|args| == 0 && useDefault) || (|args| == 1 && args[0].Num?)
    ensures r.LongValue? ==> r.v == (if |args| == 0 then default else args[0].n)
    ensures |args| > 1 || (|args| == 0 && !useDefault) ==> r == LongRejected(BadArgCount)
  {
    if |args| > 1 || (|args| == 0 && !useDefault) then LongRejected(BadArgCount)
    else if |args| == 0 then LongValue(default)
    else if args[0].Num? then LongValue(args[0].n)
    else LongRejected(BadArgType)
  }

  // ---------------------------------------------------------------------
  // The list `set_strlist_opt` builds

  /** The non-NULL elements of a string array, in array order. */
  function Compact(a: seq<Option<string>>): seq<string>
  {
    if a == [] then [] else (if a[0].Some? then [a[0].value] else []) + Compact(a[1..])
  }

  lemma {:induction false} CompactSnoc(a: seq<Option<string>>, x: Option<string>)
    ensures Compact(a + [x]) == Compact(a) + (if x.Some? then [x.value] else [])
  {
    var tail := if x.Some? then [x.value] else [];
    if a == [] {
      assert a + [x] == [x];
      assert Compact([x]) == tail + Compact([]);
    } else {
      var head := if a[0].Some? then [a[0].value] else [];
      assert (a + [x])[0] == a[0];
      assert (a + [x])[1..] == a[1..] + [x];
      assert Compact(a + [x]) == head + Compact(a[1..] + [x]);
      CompactSnoc(a[1..], x);
      assert head + (Compact(a[1..]) + tail) == (head + Compact(a[1..])) + tail;
    }
  }

  /** A string is in the built list exactly when the array holds it, and the
      list is never longer than the array. */
  lemma {:induction false} CompactElements(a: seq<Option<string>>)
    ensures |Compact(a)| <= |a|
    ensures forall s :: s in Compact(a) <==> Some(s) in a
  {
    if a != [] {
      CompactElements(a[1..]);
      assert a == [a[0]] + a[1..];
    }
  }

  /** An array without NULL elements becomes a list of the same strings. */
  lemma {:induction false} CompactNoNulls(a: seq<Option<string>>)
    requires forall i :: 0 <= i < |a| ==> a[i].Some?
    ensures |Compact(a)| == |a|
    ensures forall i :: 0 <= i < |a| ==> Compact(a)[i] == a[i].value
  {
    if a != [] {
      CompactNoNulls(a[1..]);
    }
  }

  datatype ListBuild = Built(list: seq<string>) | AppendFailed

  /** Every `curl_slist_append` the loop makes succeeds: the one for each
      non-NULL element; `appendOk(i)` is the outcome for array position `i`. */
  predicate AllAppendsSucceed(arr: seq<Option<string>>, appendOk: nat -> bool)
  {
    forall j :: 0 <= j < |arr| && arr[j].Some? ==> appendOk(j)
  }

  /** The loop of `set_strlist_opt`: append each non-NULL element in turn.  A
      failed append abandons the partial list. */
  method BuildList(arr: seq<Option<string>>, appendOk: nat -> bool) returns (r: ListBuild)
    ensures r == if AllAppendsSucceed(arr, appendOk) then Built(Compact(arr)) else AppendFailed
  {
    var list: seq<string> := [];
    var i := 0;
    while i < |arr|
      invariant 0 <= i <= |arr|
      invariant list == Compact(arr[..i])
      invariant forall j :: 0 <= j < i && arr[j].Some? ==> appendOk(j)
    {
      CompactSnoc(arr[..i], arr[i]);
      assert arr[..i + 1] == arr[..i] + [arr[i]];
      if arr[i].Some? {
        if !appendOk(i) {
          return AppendFailed;
        }
        list := list + [arr[i].value];
      }
      i := i + 1;
    }
    assert arr[..i] == arr;
    return Built(list);
  }

  // ---------------------------------------------------------------------
  // What each setter family does to the handle's stored state

  /** `set_long_opt`: only the argument rule and libcurl's verdict; nothing is stored. */
  function LongOptEffect(args: seq<Arg>, useDefault: bool, default: int, nativeOk: bool): (r: Status)
    ensures r.Ok? <==> LongOptValue(args, useDefault, default).LongValue? && nativeOk
    ensures LongOptValue(args, useDefault, default).LongValue? && !nativeOk ==> r == Err(NativeError)
  {
    match LongOptValue(args, useDefault, default)
    case LongRejected(e) => Err(e)
    case LongValue(_) => if nativeOk then Ok else Err(NativeError)
  }

  /** `set_string_opt_internal` on the slot table: the option's slot must exist;
      storing the string already there is a no-op that does not consult
      libcurl; otherwise the slot takes the new string only if libcurl accepts it. */
  function StoreString(slots: seq<Option<string>>, code: int, s: string, nativeOk: bool)
    : (r: (Status, seq<Option<string>>))
    ensures |r.1| == |slots|
    ensures r.0.Ok? <==> 0 <= SlotIndex(code) < |slots| && (slots[SlotIndex(code)] == Some(s) || nativeOk)
    ensures r.0.Ok? ==> r.1 == slots[SlotIndex(code) := Some(s)]
    ensures r.0.Err? ==> r.1 == slots
    ensures (SlotIndex(code) < 0 || |slots| <= SlotIndex(code)) ==> r.0 == Err(BadOptionIndex)
  {
    var i := SlotIndex(code);
    if i < 0 || i >= |slots| then (Err(BadOptionIndex), slots)
    else if slots[i] == Some(s) then (Ok, slots)
    else if !nativeOk then (Err(NativeError), slots)
    else (Ok, slots[i := Some(s)])
  }

  /** `set_string_opt`: exactly one string argument, then `StoreString`. */
  function StringOptEffect(slots: seq<Option<string>>, code: int, args: seq<Arg>, nativeOk: bool)
    : (r: (Status, seq<Option<string>>))
    ensures |args| != 1 ==> r == (Err(BadArgCount), slots)
    ensures r.0.Ok? ==> args[0].Str? && 0 <= SlotIndex(code) < |slots|
    ensures r.0.Ok? ==> r.1 == slots[SlotIndex(code) := Some(args[0].s)]
    ensures r.0.Err? ==> r.1 == slots
  {
    if |args| != 1 then (Err(BadArgCount), slots)
    else if !args[0].Str? then (Err(BadArgType), slots)
    else StoreString(slots, code, args[0].s, nativeOk)
  }

  /** Setting the same string twice leaves the table as setting it once, and
      the second call succeeds whatever libcurl would have answered. */
  lemma StoreStringIdempotent(slots: seq<Option<string>>, code: int, s: string, ok1: bool, ok2: bool)
    requires StoreString(slots, code, s, ok1).0.Ok?
    ensures StoreString(StoreString(slots, code, s, ok1).1, code, s, ok2)
            == (Ok, StoreString(slots, code, s, ok1).1)
  {
    var i := SlotIndex(code);
    assert StoreString(slots, code, s, ok1).1[i] == Some(s);
  }

  /** Storing one option's string leaves every other option's slot as it was. */
  lemma StoreStringKeepsOtherSlots(slots: seq<Option<string>>, code: int, s: string, nativeOk: bool, j: int)
    requires 0 <= j < |slots| && j != SlotIndex(code)
    ensures StoreString(slots, code, s, nativeOk).1[j] == slots[j]
  {
  }

  /** `set_strlist_opt` on the eight list slots (a missing key is a NULL list).
      An argument error or a failed append leaves every slot alone; otherwise
      the old list is dropped before libcurl is asked, so a refusal leaves the
      slot empty rather than restoring it, and an acceptance stores the list. */
  function ListOptEffect(lists: map<ListSlot, seq<string>>, slot: ListSlot, args: seq<Arg>,
                         appendOk: nat -> bool, nativeOk: bool)
    : (r: (Status, map<ListSlot, seq<string>>))
    ensures forall other :: other != slot ==>
              (other in r.1 <==> other in lists) && (other in lists ==> r.1[other] == lists[other])
    ensures r.0.Err? && r.0 != Err(NativeError) ==> r.1 == lists
    ensures r.0 == Err(NativeError) ==> slot in r.1 && r.1[slot] == []
    ensures r.0.Ok? && |args| == 0 ==> slot in r.1 && r.1[slot] == []
    ensures r.0.Ok? && |args| == 1 ==> args[0].StrArray? && slot in r.1 && |r.1[slot]| <= |args[0].elems|
    ensures r.0.Ok? && |args| == 1 ==> forall s :: s in r.1[slot] <==> Some(s) in args[0].elems
    ensures |args| > 1 ==> r.0 == Err(BadArgCount)
  {
    if |args| > 1 then (Err(BadArgCount), lists)
    else if |args| == 1 && !args[0].StrArray? then (Err(BadArgType), lists)
    else if |args| == 1 && !AllAppendsSucceed(args[0].elems, appendOk) then (Err(ListBuildFailed), lists)
    else
      var elems := if |args| == 0 then [] else args[0].elems;
      var built := Compact(elems);
      CompactElements(elems);
      if nativeOk then (Ok, lists[slot := built]) else (Err(NativeError), lists[slot := []])
  }

  /** A user callback and the data value passed back to it. */
  datatype Callback = Callback(fn: nat, data: Arg)

  /** `set_function_opt`: a function and a data value; the pair replaces the
      old one only when libcurl accepts both the trampoline and the context. */
  function FunctionOptEffect(cbs: map<CallbackKind, Callback>, kind: CallbackKind, args: seq<Arg>, nativeOk: bool)
    : (r: (Status, map<CallbackKind, Callback>))
    ensures r.0.Ok? <==> |args| == 2 && args[0].Func? && nativeOk
    ensures r.0.Ok? ==> r.1 == cbs[kind := Callback(args[0].f, args[1])]
    ensures r.0.Err? ==> r.1 == cbs
    ensures |args| == 2 && args[0].Func? && !nativeOk ==> r.0 == Err(NativeUnreported)
  {
    if |args| != 2 then (Err(BadArgCount), cbs)
    else if !args[0].Func? then (Err(BadArgType), cbs)
    else if !nativeOk then (Err(NativeUnreported), cbs)
    else (Ok, cbs[kind := Callback(args[0].f, args[1])])
  }

  // ---------------------------------------------------------------------
  // The read callback

  /** What the user's read callback left: NULL, a byte string, a value of some
      other type, or nothing because the call itself failed. */
  datatype ReadReply = ReplyNull | ReplyBytes(data: seq<bv8>) | ReplyOther | CallFailed

  /** `CURL_READFUNC_ABORT` (the transfer stops) or the bytes copied into libcurl's buffer. */
  datatype ReadResult = ReadAbort | Copied(bytes: seq<bv8>)

  /** `bytes_requested = (unsigned int)(size * nmemb)`. */
  function ReadRequested(size: nat, nmemb: nat): (r: nat)
    ensures r < 0x1_0000_0000
    ensures size * nmemb < 0x1_0000_0000 ==> r == size * nmemb
  {
    (size * nmemb) % 0x1_0000_0000
  }

  /** `read_function`: a byte string is copied up to the requested count; NULL,
      a value of another type or a failed call aborts.  An empty byte string
      copies nothing, which ends the input without aborting. */
  function ReadTransfer(reply: ReadReply, requested: nat): (r: ReadResult)
    ensures r.Copied? <==> reply.ReplyBytes?
    ensures r.Copied? ==> |r.bytes| <= requested && r.bytes <= reply.data
    ensures r.Copied? && |reply.data| <= requested ==> r.bytes == reply.data
    ensures r.Copied? && requested < |reply.data| ==> |r.bytes| == requested
  {
    match reply
    case ReplyBytes(data) =>
      var n := if |data| > requested then requested else |data|;
      Copied(data[..n])
    case _ => ReadAbort
  }
}
