/**
  AlpacaValueTask: an immutable pair of a captured asynchronous operation and
  the cancellation token it will be invoked with. Delegates are represented by
  opaque identities; awaiting is represented by its observable trace.
 */
module ValueTasks {
  import opened Cancellation

  /** Identity of a `Func<CancellationToken, ValueTask>` delegate. */
  datatype FunctionId =
    | NoOp              // `_ => new ValueTask()` of the parameterless constructor
    | Captured(id: nat) // a delegate handed to the internal constructor

  datatype AlpacaValueTask = AlpacaValueTask(fid: FunctionId, tok: CancellationToken)

  /** A boxed `object` as seen by `Equals(object)`: null, this struct, or anything else. */
  datatype Object = Null | Boxed(task: AlpacaValueTask) | OtherObject(id: nat)

  /** One call of a captured delegate, with the token it received. */
  datatype Invocation = Invocation(fid: FunctionId, tok: CancellationToken)

  /** An observable side effect of a captured operation. */
  datatype Effect = Effect(id: nat)

  /** What has happened so far: every delegate call, in order, and the effects they caused. */
  datatype Trace = Trace(invocations: seq<Invocation>, effects: seq<Effect>)

  /** The effects a captured delegate causes when invoked with a token; not visible to this model. */
  type Behaviour = (nat, CancellationToken) -> seq<Effect>

  /** `new AlpacaValueTask()`: a no-op operation bound to CancellationToken.None. */
  function New(): (v: AlpacaValueTask)
    ensures v.tok == NoneToken
    ensures forall behaviour: Behaviour, t: Trace ::
              Await(v, behaviour, t).effects == t.effects
  {
    AlpacaValueTask(NoOp, NoneToken)
  }

  /** `WithCancellation(token)`: a new value over the same operation, bound to `token`. */
  function WithCancellation(v: AlpacaValueTask, token: CancellationToken): (w: AlpacaValueTask)
    ensures w.fid == v.fid && w.tok == token
    ensures Equals(w, v) <==> token == v.tok
  {
    AlpacaValueTask(v.fid, token)
  }

  /** The effects of invoking one delegate; the no-op delegate causes none. */
  function EffectsOf(fid: FunctionId, tok: CancellationToken, behaviour: Behaviour): seq<Effect> {
    match fid
    case NoOp => []
    case Captured(id) => behaviour(id, tok)
  }

  /** `await v`: invokes the captured delegate with the stored token. */
  function Await(v: AlpacaValueTask, behaviour: Behaviour, t: Trace): (t': Trace)
    ensures |t'.invocations| == |t.invocations| + 1
    ensures t'.invocations[..|t.invocations|] == t.invocations
    ensures t'.invocations[|t.invocations|] == Invocation(v.fid, v.tok)
    ensures |t.effects| <= |t'.effects| && t'.effects[..|t.effects|] == t.effects
  {
    Trace(t.invocations + [Invocation(v.fid, v.tok)],
          t.effects + EffectsOf(v.fid, v.tok, behaviour))
  }

  /** `Equals(AlpacaValueTask)`: same delegate and same token. */
  predicate Equals(a: AlpacaValueTask, b: AlpacaValueTask)
    ensures Equals(a, b) <==> a == b
  {
    a.fid == b.fid && a.tok == b.tok
  }

  /** `Equals(object)`: only a boxed AlpacaValueTask can be equal. */
  predicate EqualsObject(a: AlpacaValueTask, obj: Object)
    ensures EqualsObject(a, obj) <==> obj == Boxed(a)
  {
    obj.Boxed? && Equals(a, obj.task)
  }

  /** `operator ==`: structural equality of the pair. */
  predicate OperatorEquals(lhs: AlpacaValueTask, rhs: AlpacaValueTask)
    ensures OperatorEquals(lhs, rhs) <==> lhs == rhs
  {
    Equals(lhs, rhs)
  }

  /** `operator !=`. */
  predicate OperatorNotEquals(lhs: AlpacaValueTask, rhs: AlpacaValueTask)
    ensures OperatorNotEquals(lhs, rhs) <==> lhs != rhs
  {
    !Equals(lhs, rhs)
  }

  /** System.Int32. */
  type Int32 = x: int | -0x8000_0000 <= x < 0x8000_0000

  /** `GetHashCode()`: the delegate's own hash code (opaque here); the token is ignored. */
  function GetHashCode(v: AlpacaValueTask, delegateHash: FunctionId -> Int32): Int32
  {
    delegateHash(v.fid)
  }

  /** Rebinding is last-wins: only the most recent token survives. */
  lemma WithCancellationLastWins(v: AlpacaValueTask, t1: CancellationToken, t2: CancellationToken)
    ensures WithCancellation(WithCancellation(v, t1), t2) == WithCancellation(v, t2)
    ensures WithCancellation(v, v.tok) == v
  {
  }

  /** Awaiting a rebound value calls the original delegate exactly once, with the new token. */
  lemma AwaitAfterRebind(v: AlpacaValueTask, token: CancellationToken, behaviour: Behaviour, t: Trace)
    ensures var t' := Await(WithCancellation(v, token), behaviour, t);
      && t'.invocations == t.invocations + [Invocation(v.fid, token)]
      && t'.effects == t.effects + EffectsOf(v.fid, token, behaviour)
  {
  }

  /** Equals is an equivalence, and `==`/`!=` agree with it. */
  lemma EqualsIsEquivalence(a: AlpacaValueTask, b: AlpacaValueTask, c: AlpacaValueTask)
    ensures Equals(a, a)
    ensures Equals(a, b) <==> Equals(b, a)
    ensures Equals(a, b) && Equals(b, c) ==> Equals(a, c)
    ensures OperatorEquals(a, b) <==> Equals(a, b)
    ensures OperatorNotEquals(a, b) <==> !Equals(a, b)
    ensures EqualsObject(a, Boxed(b)) <==> Equals(a, b)
    ensures !EqualsObject(a, Null)
  {
  }

  /** Equal values hash equally; values differing only in their token hash equally too. */
  lemma HashConsistentWithEquals(a: AlpacaValueTask, b: AlpacaValueTask, delegateHash: FunctionId -> Int32)
    ensures Equals(a, b) ==> GetHashCode(a, delegateHash) == GetHashCode(b, delegateHash)
    ensures a.fid == b.fid ==> GetHashCode(a, delegateHash) == GetHashCode(b, delegateHash)
    ensures forall t :: GetHashCode(WithCancellation(a, t), delegateHash) == GetHashCode(a, delegateHash)
  {
  }
}
