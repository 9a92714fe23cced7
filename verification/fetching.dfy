/**
  The lazy-field fetching modes of `django/db/models/fields/fetching.py`: a
  process-wide default mode and a per-thread override that `lazy_mode`
  sets for the extent of a `with` block. The thread-local is one slot
  here, and a mode is one of the three the module defines or a project's
  own callable, named.
 */
module FetchingModes {
  import opened Common

  datatype Mode = FetchOne | FetchPeers | Raise | CustomMode(name: string)

  /** What a caller passes: a callable mode or some value that is not callable. */
  datatype ModeArg = Callable(mode: Mode) | NotCallable

  /** The module global `_default` and the thread-local `_local.mode`, absent when None. */
  datatype State = State(default: Mode, local: Option<Mode>)

  /** At import: the default is `FETCH_ONE` and no override is set. */
  const Initial: State := State(FetchOne, None)

  datatype TypeError = TypeError(msg: string)

  const MsgModeNotCallable: string := "mode must be callable."
  /** The message `lazy_mode` raises with, naming the wrong argument. */
  const MsgLazyNotCallable: string := "on_delete must be callable."

  /** `get_fetching_mode()`: the override when one is set, else the default. */
  function Current(st: State): (m: Mode)
    ensures st.local.Some? ==> m == st.local.value
    ensures st.local.None? ==> m == st.default
  {
    st.local.GetOr(st.default)
  }

  /** `set_default_fetching_mode(mode)` */
  function SetDefault(st: State, arg: ModeArg): (r: Result<State, TypeError>)
    ensures arg.NotCallable? <==> r.Err?
    ensures r.Err? ==> r.error == TypeError(MsgModeNotCallable)
    ensures r.Ok? ==> r.value.default == arg.mode && r.value.local == st.local
  {
    match arg
    case NotCallable => Err(TypeError(MsgModeNotCallable))
    case Callable(m) => Ok(st.(default := m))
  }

  /** A new default shows only where no `lazy_mode` block is active. */
  lemma SetDefaultVisibleOutsideBlocks(st: State, m: Mode)
    ensures Current(SetDefault(st, Callable(m)).value) == (if st.local.Some? then st.local.value else m)
  {
  }

  /** What entering a `lazy_mode` block saved: the override it replaced. */
  datatype Saved = Saved(orig: Option<Mode>)

  /**
    Entering `lazy_mode(mode)`: the argument is checked before any state
    changes, then the old override is saved and replaced.
   */
  function Enter(st: State, arg: ModeArg): (r: Result<(State, Saved), TypeError>)
    ensures arg.NotCallable? <==> r.Err?
    ensures r.Err? ==> r.error == TypeError(MsgLazyNotCallable)
    ensures r.Ok? ==> (Current(r.value.0) == arg.mode && r.value.0.default == st.default
      && r.value.1 == Saved(st.local))
  {
    match arg
    case NotCallable => Err(TypeError(MsgLazyNotCallable))
    case Callable(m) => Ok((st.(local := Some(m)), Saved(st.local)))
  }

  /**
    Leaving the block, by the end of its body or by an exception: the
    `finally` clause deletes the override when none was saved, else puts
    the saved one back. The default is whatever it is by then.
   */
  function Exit(st: State, saved: Saved): (r: State)
    ensures r.local == saved.orig && r.default == st.default
  {
    match saved.orig
    case None => st.(local := None)
    case Some(m) => st.(local := Some(m))
  }

  /**
    Whatever the body did to the override (nested blocks included) and
    whether or not it raised, leaving the block restores the override it
    found; what the body did to the default stays.
   */
  lemma ExitRestores(st: State, m: Mode, afterBody: State)
    ensures var (inside, saved) := Enter(st, Callable(m)).value;
      Current(inside) == m
      && Exit(afterBody, saved) == State(afterBody.default, st.local)
  {
  }

  /**
    Two nested blocks: inside the inner one its mode applies, after it the
    outer one's again, and after both the state is as before.
   */
  lemma NestedBlocks(st: State, outer: Mode, inner: Mode)
    ensures var (s1, saved1) := Enter(st, Callable(outer)).value;
      var (s2, saved2) := Enter(s1, Callable(inner)).value;
      var s3 := Exit(s2, saved2);
      var s4 := Exit(s3, saved1);
      Current(s2) == inner && Current(s3) == outer && s4 == st
  {
  }

  /** Leaving the outermost block brings back the default, as it stands then. */
  lemma OutermostExitUsesDefault(m: Mode, newDefault: Mode)
    ensures var (inside, saved) := Enter(Initial, Callable(m)).value;
      Current(Exit(inside.(default := newDefault), saved)) == newDefault
  {
  }

  // ---- the modes ----

  /** A model instance: its class's qualified name and the weak references to its peers. */
  datatype Instance = Instance(id: nat, qualname: string, peers: seq<Option<nat>>)

  datatype LazyFieldAccess = LazyFieldAccess(msg: string)

  /** The live peers, in order: the weak references that still resolve. */
  function LivePeers(peers: seq<Option<nat>>): (r: seq<nat>)
    ensures |r| <= |peers|
    ensures forall x :: x in r <==> Some(x) in peers
    decreases |peers|
  {
    if peers == [] then []
    else
      var rest := LivePeers(peers[1..]);
      assert forall o :: o in peers <==> o == peers[0] || o in peers[1..];
      match peers[0]
      case Some(p) => [p] + rest
      case None => rest
  }

  /**
    The order of the peers is kept: the live peers of two runs of weak
    references are those of the first run, then those of the second. With
    the one-reference cases this fixes the sequence.
   */
  lemma {:induction false} LivePeersAppend(a: seq<Option<nat>>, b: seq<Option<nat>>)
    ensures LivePeers(a + b) == LivePeers(a) + LivePeers(b)
    decreases |a|
  {
    if a != [] {
      assert (a + b)[0] == a[0];
      assert (a + b)[1..] == a[1..] + b;
      LivePeersAppend(a[1..], b);
    } else {
      assert a + b == b;
    }
  }

  /** A peer still alive is fetched; one collected is skipped. */
  lemma LivePeersSingle(o: Option<nat>)
    ensures LivePeers([o]) == if o.Some? then [o.value] else []
  {
    assert [o][1..] == [];
  }

  /**
    What a built-in mode does when a deferred field of `instance` is read:
    the ids handed to `fetcher.fetch`, or the error `RAISE` raises. A peer
    list that is empty (peers are not tracked) fetches the instance alone;
    a non-empty one fetches its live members, possibly none.
   */
  function Apply(mode: Mode, instance: Instance, fieldName: string): (r: Result<seq<nat>, LazyFieldAccess>)
    requires !mode.CustomMode?
    ensures mode == FetchOne ==> r == Ok([instance.id])
    ensures mode == FetchPeers && instance.peers == [] ==> r == Ok([instance.id])
    ensures mode == FetchPeers && instance.peers != [] ==>
      r.Ok? && forall x :: x in r.value <==> Some(x) in instance.peers
    ensures mode == Raise <==> r.Err?
    ensures r.Err? ==> r.error.msg == "Lazy loading of " + instance.qualname + "." + fieldName + " blocked."
  {
    match mode
    case FetchOne => Ok([instance.id])
    case FetchPeers =>
      if instance.peers != [] then Ok(LivePeers(instance.peers)) else Ok([instance.id])
    case Raise => Err(LazyFieldAccess("Lazy loading of " + instance.qualname + "." + fieldName + " blocked."))
  }
}
