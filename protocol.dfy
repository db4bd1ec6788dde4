/**
 * The message protocol between a controller and its worker: the request
 * envelope, the transfer lists on both directions, and how a response is
 * turned into a settlement and a status.
 */
module Protocol {
  import opened Types

  /** The four kinds the source hands over by ownership transfer instead of cloning. */
  predicate IsTransferable(v: Value) {
    v.ArrayBuffer? || v.MessagePort? || v.ImageBitmap? || v.OffscreenCanvas?
  }

  /** The request data `[[...args]]`: the argument list in a one-element envelope. */
  function Envelope(args: seq<Value>): (data: seq<seq<Value>>)
    ensures |data| == 1 && data[0] == args
  {
    [args]
  }

  /** The arguments a worker reads back, `const [userFuncArgs] = e.data`. */
  function Arguments(data: seq<seq<Value>>): seq<Value>
    requires |data| >= 1
  {
    data[0]
  }

  /** `args.filter(isTransferable)`. */
  function Transferables(args: seq<Value>): (r: seq<Value>)
    ensures |r| <= |args|
  {
    if args == [] then []
    else (if IsTransferable(args[0]) then [args[0]] else []) + Transferables(args[1..])
  }

  /** The transfer list a controller posts with a request. */
  function OutboundTransferList(auto: bool, args: seq<Value>): seq<Value> {
    if auto then Transferables(args) else []
  }

  /**
   * The transfer list a worker posts with a successful result: only the result
   * itself, never its elements, and only under the literal `'auto'`.
   */
  function ResultTransferList(transferable: string, result: Value): (r: seq<Value>)
    ensures r == [] || r == [result]
    ensures r == [result] <==> transferable == "auto" && IsTransferable(result)
  {
    if transferable == "auto" && IsTransferable(result) then [result] else []
  }

  /** How the `onmessage` handler settles the pending call for `[status, result]`. */
  function Decode(tag: string, payload: Value): Settlement {
    if tag == "idle" then Resolved(payload) else Rejected(Payload(payload))
  }

  /** The status the handler moves to for a response tag. */
  function EndStatus(tag: string): Status {
    if tag == "idle" then Idle else Error
  }

  lemma EnvelopeRoundTrip(args: seq<Value>)
    ensures Arguments(Envelope(args)) == args
  {}

  /** Exactly the transferable arguments survive the filter. */
  lemma {:induction false} TransferablesMembers(args: seq<Value>, x: Value)
    ensures x in Transferables(args) <==> x in args && IsTransferable(x)
  {
    if args != [] {
      TransferablesMembers(args[1..], x);
      assert args == [args[0]] + args[1..];
    }
  }

  /** The filter keeps argument order: it distributes over concatenation. */
  lemma {:induction false} TransferablesAppend(a: seq<Value>, b: seq<Value>)
    ensures Transferables(a + b) == Transferables(a) + Transferables(b)
  {
    if a == [] {
      assert a + b == b;
    } else {
      var head := if IsTransferable(a[0]) then [a[0]] else [];
      assert (a + b)[0] == a[0] && (a + b)[1..] == a[1..] + b;
      assert Transferables(a + b) == head + Transferables(a[1..] + b);
      TransferablesAppend(a[1..], b);
      assert Transferables(a) == head + Transferables(a[1..]);
    }
  }

  /** Each transferable argument is listed as often as it occurs; nothing else is listed. */
  lemma {:induction false} TransferablesCount(args: seq<Value>, x: Value)
    ensures multiset(Transferables(args))[x] == if IsTransferable(x) then multiset(args)[x] else 0
  {
    if args != [] {
      TransferablesCount(args[1..], x);
      assert args == [args[0]] + args[1..];
    }
  }

  /** The list is the whole argument list exactly when every argument is transferable. */
  lemma {:induction false} TransferablesAll(args: seq<Value>)
    ensures Transferables(args) == args <==> forall i :: 0 <= i < |args| ==> IsTransferable(args[i])
  {
    if args != [] {
      TransferablesAll(args[1..]);
      if !IsTransferable(args[0]) {
        assert |Transferables(args)| < |args|;
      }
      assert forall i :: 1 <= i < |args| ==> args[i] == args[1..][i - 1];
    }
  }

  /**
   * The inbound rule is the outbound rule applied to the single result value,
   * with the policy read from its embedded literal.
   */
  lemma ResultRuleIsOutboundRule(t: Js<TransferableType>, result: Value)
    ensures ResultTransferList(JsText(t), result) == OutboundTransferList(t == Given(AUTO), [result])
  {
    JsTextAutoOnlyForAuto(t);
    assert [result][1..] == [];
  }

  /** An array holding a transferable value is cloned whole: the rule is shallow. */
  lemma ShallowResultRule(id: nat)
    ensures ResultTransferList("auto", Array([ArrayBuffer(id)])) == []
    ensures ResultTransferList("auto", ArrayBuffer(id)) == [ArrayBuffer(id)]
  {}
}
