/** `findExternalOrigin`: from a delegated run back through the messages that caused it, to the
    nearest run that answers an external message. */
module TeamChatOrigin {
  import opened Wrappers
  import opened TeamChatRows

  const BOT_MESSAGE_MAX_HOPS: nat := 6

  type Id = nat

  /** What the walk reads: the run of the message a message replies to, the external message of a
      run, and the message a run was started from. */
  datatype Links = Links(replyToRun: map<Id, Id>, external: map<Id, Id>, source: map<Id, Id>)

  function Lookup(m: map<Id, Id>, key: Option<Id>): Option<Id> {
    if key.Some? && key.value in m then Some(m[key.value]) else None
  }

  /** The run whose message `message` replies to. */
  function Parent(links: Links, message: Option<Id>): Option<Id> { Lookup(links.replyToRun, message) }

  /** The parent of a run: the parent of the message it was started from. */
  function NextRun(links: Links, run: Id): Option<Id> { Parent(links, Lookup(links.source, Some(run))) }

  /** The k-th ancestor run of `message`, if the chain is that long. */
  function Ancestor(links: Links, message: Option<Id>, k: nat): Option<Id>
    decreases k
  {
    if k == 0 then Parent(links, message)
    else
      var before := Ancestor(links, message, k - 1);
      if before.None? then None else NextRun(links, before.value)
  }

  predicate HasExternal(links: Links, run: Option<Id>) { run.Some? && run.value in links.external }

  /** The loop of the original. It answers with the external message of the nearest ancestor that
      has one, looking at most BOT_MESSAGE_MAX_HOPS + 1 ancestors up, and with nothing only if none
      of those has one: stopping at a revisited run loses nothing. */
  method FindExternalOrigin(links: Links, sourceMessageId: Option<Id>) returns (origin: Option<Id>)
    ensures origin.Some? ==>
      exists k :: 0 <= k <= BOT_MESSAGE_MAX_HOPS
               && HasExternal(links, Ancestor(links, sourceMessageId, k))
               && links.external[Ancestor(links, sourceMessageId, k).value] == origin.value
               && forall j :: 0 <= j < k ==> !HasExternal(links, Ancestor(links, sourceMessageId, j))
    ensures origin.None? ==>
      forall k :: 0 <= k <= BOT_MESSAGE_MAX_HOPS ==> !HasExternal(links, Ancestor(links, sourceMessageId, k))
  {
    var currentSourceMessageId := sourceMessageId;
    var visitedRunIds: set<Id> := {};
    var depth := 0;
    while currentSourceMessageId.Some? && depth <= BOT_MESSAGE_MAX_HOPS
      invariant 0 <= depth <= BOT_MESSAGE_MAX_HOPS + 1
      invariant Parent(links, currentSourceMessageId) == Ancestor(links, sourceMessageId, depth)
      invariant forall k :: 0 <= k < depth ==>
        Ancestor(links, sourceMessageId, k).Some? && !HasExternal(links, Ancestor(links, sourceMessageId, k))
      invariant visitedRunIds == set k | 0 <= k < depth :: Ancestor(links, sourceMessageId, k).value
    {
      var parentRunId := Parent(links, currentSourceMessageId);
      if parentRunId.None? || parentRunId.value in visitedRunIds {
        forall k | depth <= k ensures !HasExternal(links, Ancestor(links, sourceMessageId, k)) {
          if parentRunId.None? {
            ChainEnds(links, sourceMessageId, depth, k);
          } else {
            var i :| 0 <= i < depth && Ancestor(links, sourceMessageId, i) == parentRunId;
            CycleRepeats(links, sourceMessageId, i, depth, k);
          }
        }
        return None;
      }
      visitedRunIds := visitedRunIds + {parentRunId.value};
      if parentRunId.value in links.external {
        return Some(links.external[parentRunId.value]);
      }
      currentSourceMessageId := Lookup(links.source, parentRunId);
      depth := depth + 1;
    }
    if currentSourceMessageId.None? {
      forall k | depth <= k ensures !HasExternal(links, Ancestor(links, sourceMessageId, k)) {
        ChainEnds(links, sourceMessageId, depth, k);
      }
    }
    origin := None;
  }

  /** A chain that has ended stays ended. */
  lemma {:induction false} ChainEnds(links: Links, message: Option<Id>, i: nat, k: nat)
    requires i <= k && Ancestor(links, message, i).None?
    ensures Ancestor(links, message, k).None?
    decreases k
  {
    if i < k { ChainEnds(links, message, i, k - 1); }
  }

  /** Once an ancestor recurs, every later ancestor is one already seen. */
  lemma {:induction false} CycleRepeats(links: Links, message: Option<Id>, i: nat, j: nat, k: nat)
    requires i < j <= k && Ancestor(links, message, i) == Ancestor(links, message, j)
    ensures exists m :: i <= m < j && Ancestor(links, message, m) == Ancestor(links, message, k)
    decreases k
  {
    if j < k {
      CycleRepeats(links, message, i, j, k - 1);
      var m :| i <= m < j && Ancestor(links, message, m) == Ancestor(links, message, k - 1);
      assert Ancestor(links, message, m + 1) == Ancestor(links, message, k);
      if m + 1 == j { assert Ancestor(links, message, i) == Ancestor(links, message, k); }
    }
  }
}
