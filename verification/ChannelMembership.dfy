/** Group-channel membership: who is invited, who is approved, and on whose answer. */
module ChannelMembership {
  import opened Wrappers

  datatype MemberStatus = Invited | Approved | Declined | Left

  /** A membership row. `cycle` and `answered` are history: how often the row has been invited, and
      in which of those cycles its last approving answer was claimed (0: none). */
  datatype Member = Member(status: MemberStatus, identityId: Option<nat>, cycle: nat, answered: nat)

  type Address = nat

  /** `messagingChannelMember` is unique per channel and address; `messagingIdentity` per address. */
  type Members = map<Address, Member>
  type Identities = map<Address, nat>

  function IdentityOf(identities: Identities, a: Address): Option<nat> {
    if a in identities then Some(identities[a]) else None
  }

  // ----- the writes, each one atomic update -----

  /** The `upsert` for a participant with no row. */
  function Join(members: Members, a: Address, identityId: Option<nat>): Members {
    if a in members then members else members[a := Member(Invited, identityId, 1, 0)]
  }

  /** The unguarded update that restarts the approval cycle. */
  function Reinvite(members: Members, a: Address): Members {
    if a in members
    then members[a := members[a].(status := Invited, cycle := members[a].cycle + 1)]
    else members
  }

  function Reattach(members: Members, a: Address, identityId: nat): Members {
    if a in members then members[a := members[a].(identityId := Some(identityId))] else members
  }

  /** The sweep: everyone invited or approved who is not on the roster has left. */
  function Sweep(members: Members, participants: seq<Address>): Members {
    map a | a in members ::
      if a !in participants && (members[a].status == Invited || members[a].status == Approved)
      then members[a].(status := Left) else members[a]
  }

  /** The claim of a YES or NO answer: `updateMany where status: invited`. */
  function ClaimAnswer(members: Members, a: Address, approve: bool): Members {
    if a in members && members[a].status == Invited
    then members[a := if approve then members[a].(status := Approved, answered := members[a].cycle)
                      else members[a].(status := Declined)]
    else members
  }

  /** The claim of LEAVE: `updateMany where status: approved`. */
  function ClaimLeave(members: Members, a: Address): Members {
    if a in members && members[a].status == Approved
    then members[a := members[a].(status := Left)]
    else members
  }

  /** Leaving a channel in the app: an unguarded update by id. */
  function Depart(members: Members, a: Address): Members {
    if a in members then members[a := members[a].(status := Left)] else members
  }

  // ----- handleChannelEvent -----

  function Participants(roster: seq<Address>, from: Address): seq<Address> {
    if from in roster then roster else roster + [from]
  }

  lemma WhoParticipates(roster: seq<Address>, from: Address)
    ensures forall a :: a in Participants(roster, from) <==> a in roster || a == from
  {}

  /** Present after an event: invited, approved or declined, and attached to the current identity. */
  predicate Present(members: Members, identities: Identities, a: Address) {
    && a in members && members[a].status != Left
    && (a in identities ==> members[a].identityId == Some(identities[a]))
  }

  /** Invited in a cycle that began after `before`. */
  predicate NewlyInvited(before: Members, after: Members, a: Address) {
    a in after && after[a].status == Invited && (a in before ==> after[a].cycle > before[a].cycle)
  }

  /** The membership writes of the participant loop for one address. */
  function Visit(members: Members, identities: Identities, a: Address): Members {
    if a !in members then Join(members, a, IdentityOf(identities, a))
    else
      var attached := if a in identities then Reattach(members, a, identities[a]) else members;
      if members[a].status == Left then Reinvite(attached, a) else attached
  }

  /** The invitations the loop sends for one address. */
  function Greet(members: Members, identities: Identities, a: Address): seq<nat> {
    if a !in identities then []
    else if a !in members || members[a].status == Left then [identities[a]]
    else if members[a].identityId != Some(identities[a]) && members[a].status == Invited then [identities[a]]
    else []
  }

  function VisitFirst(members: Members, identities: Identities, participants: seq<Address>, k: nat): Members
    requires k <= |participants|
    decreases k
  {
    if k == 0 then members
    else Visit(VisitFirst(members, identities, participants, k - 1), identities, participants[k - 1])
  }

  function GreetFirst(members: Members, identities: Identities, participants: seq<Address>, k: nat): seq<nat>
    requires k <= |participants|
    decreases k
  {
    if k == 0 then []
    else GreetFirst(members, identities, participants, k - 1)
         + Greet(VisitFirst(members, identities, participants, k - 1), identities, participants[k - 1])
  }

  lemma VisitIsSafe(members: Members, identities: Identities, a: Address)
    ensures var after := Visit(members, identities, a);
            && Present(after, identities, a) && after.Keys == members.Keys + {a}
            && (forall b :: b in members && b != a ==> after[b] == members[b])
            && (a in members ==> after[a].cycle >= members[a].cycle)
            && (after[a].status == Approved ==>
                a in members && members[a].status == Approved && after[a].cycle == members[a].cycle)
  {}

  /** The loop leaves every participant present, approves nobody, and adds only participants. */
  lemma {:induction false} VisitsAreSafe(members: Members, identities: Identities, participants: seq<Address>, k: nat)
    requires k <= |participants|
    ensures var after := VisitFirst(members, identities, participants, k);
            && (forall a :: a in participants[..k] ==> Present(after, identities, a))
            && (forall a :: a in members ==> a in after && after[a].cycle >= members[a].cycle)
            && (forall a :: a in after && after[a].status == Approved ==>
                  a in members && members[a].status == Approved && after[a].cycle == members[a].cycle)
            && (forall a :: a in after && a !in members ==> a in participants[..k])
    decreases k
  {
    if k > 0 {
      VisitsAreSafe(members, identities, participants, k - 1);
      VisitIsSafe(VisitFirst(members, identities, participants, k - 1), identities, participants[k - 1]);
      assert participants[..k] == participants[..k - 1] + [participants[k - 1]];
    }
  }

  /** Everyone the loop newly invites and can reach is sent an invitation. */
  lemma {:induction false} NewInvitationsAreSent(members: Members, identities: Identities, participants: seq<Address>,
                                                 k: nat, a: Address)
    requires k <= |participants| && a in identities
    requires NewlyInvited(members, VisitFirst(members, identities, participants, k), a)
    ensures identities[a] in GreetFirst(members, identities, participants, k)
    decreases k
  {
    if k > 0 {
      var before := VisitFirst(members, identities, participants, k - 1);
      VisitsAreSafe(members, identities, participants, k - 1);
      if NewlyInvited(members, before, a) {
        NewInvitationsAreSent(members, identities, participants, k - 1, a);
      }
    }
  }

  /** The row of a participant after an event: a new one is invited; whoever had left is invited again,
      in the next cycle; every other status stays; and the row is attached to the current identity. */
  predicate VisitedRow(before: Members, after: Members, identities: Identities, a: Address) {
    && a in after
    && if a !in before then after[a] == Member(Invited, IdentityOf(identities, a), 1, 0)
       else
         && after[a].status == (if before[a].status == Left then Invited else before[a].status)
         && after[a].cycle == before[a].cycle + (if before[a].status == Left then 1 else 0)
         && after[a].answered == before[a].answered
         && after[a].identityId == (if a in identities then Some(identities[a]) else before[a].identityId)
  }

  /** The row of anybody else: out, if a roster says so and the row was invited or approved. */
  predicate AbsentRow(before: Members, after: Members, roster: bool, a: Address) {
    if a !in before then a !in after
    else a in after && after[a] == if roster && before[a].status in {Invited, Approved}
                                   then before[a].(status := Left) else before[a]
  }

  lemma {:induction false} LoopRows(members: Members, identities: Identities, participants: seq<Address>, k: nat,
                                    a: Address)
    requires k <= |participants|
    ensures var after := VisitFirst(members, identities, participants, k);
            if a in participants[..k] then VisitedRow(members, after, identities, a)
            else AbsentRow(members, after, false, a)
    decreases k
  {
    if k > 0 {
      LoopRows(members, identities, participants, k - 1, a);
      assert participants[..k] == participants[..k - 1] + [participants[k - 1]];
    }
  }

  /** What an event makes of every row. */
  lemma RowsAfterAnEvent(members: Members, identities: Identities, roster: seq<Address>, from: Address, a: Address)
    ensures var after := Settled(members, identities, roster, from);
            if a in roster || a == from then VisitedRow(members, after, identities, a)
            else AbsentRow(members, after, roster != [], a)
  {
    var participants := Participants(roster, from);
    LoopRows(members, identities, participants, |participants|, a);
    assert participants[..|participants|] == participants;
  }

  lemma AllRowsAfterAnEvent(members: Members, identities: Identities, roster: seq<Address>, from: Address)
    ensures var after := Settled(members, identities, roster, from);
            forall a :: if a in roster || a == from then VisitedRow(members, after, identities, a)
                        else AbsentRow(members, after, roster != [], a)
  {
    forall a ensures var after := Settled(members, identities, roster, from);
                     if a in roster || a == from then VisitedRow(members, after, identities, a)
                     else AbsentRow(members, after, roster != [], a)
    {
      RowsAfterAnEvent(members, identities, roster, from, a);
    }
  }

  /** Whom the loop messages: linked participants who are new, were gone, or are invited under another
      identity. */
  predicate ToldBy(members: Members, identities: Identities, a: Address) {
    && a in identities
    && (|| a !in members || members[a].status == Left
        || (members[a].status == Invited && members[a].identityId != Some(identities[a])))
  }

  /** The identities of those to be told among the first `k` participants, each address once, in the
      order of the list. */
  function ToldFirst(members: Members, identities: Identities, participants: seq<Address>, k: nat): seq<nat>
    requires k <= |participants|
    decreases k
  {
    if k == 0 then []
    else
      var a := participants[k - 1];
      ToldFirst(members, identities, participants, k - 1)
      + if a !in participants[..k - 1] && ToldBy(members, identities, a) then [identities[a]] else []
  }

  /** They are messaged once each, in order, and nobody else is. */
  lemma {:induction false} InvitationsAreExact(members: Members, identities: Identities, participants: seq<Address>,
                                               k: nat)
    requires k <= |participants|
    ensures GreetFirst(members, identities, participants, k) == ToldFirst(members, identities, participants, k)
    decreases k
  {
    if k > 0 {
      InvitationsAreExact(members, identities, participants, k - 1);
      FirstTimeGreeted(members, identities, participants, k - 1);
      assert ToldFirst(members, identities, participants, k)
             == ToldFirst(members, identities, participants, k - 1)
                + Greet(VisitFirst(members, identities, participants, k - 1), identities, participants[k - 1]);
    }
  }

  /** An address is messaged only the first time round. */
  lemma FirstTimeGreeted(members: Members, identities: Identities, participants: seq<Address>, k: nat)
    requires k < |participants|
    ensures var a := participants[k];
            Greet(VisitFirst(members, identities, participants, k), identities, a)
            == if a !in participants[..k] && ToldBy(members, identities, a) then [identities[a]] else []
  {
    LoopRows(members, identities, participants, k, participants[k]);
  }

  /** The membership after the loop and the sweep. */
  function Settled(members: Members, identities: Identities, roster: seq<Address>, from: Address): Members {
    var participants := Participants(roster, from);
    var visited := VisitFirst(members, identities, participants, |participants|);
    if roster != [] then Sweep(visited, participants) else visited
  }

  /** Every participant is present; with a roster nobody else is invited or approved; nobody is
      approved who was not, and no row is lost or made for anybody else. */
  lemma MembershipFollowsTheRoster(members: Members, identities: Identities, roster: seq<Address>, from: Address)
    ensures var participants, after := Participants(roster, from), Settled(members, identities, roster, from);
            && (forall a :: a in participants ==> Present(after, identities, a))
            && (roster != [] ==> forall a :: a in after && after[a].status in {Invited, Approved} ==> a in participants)
            && (forall a :: a in after && a !in members ==> a in participants)
            && (forall a :: a in members ==> a in after)
            && (forall a :: a in after && after[a].status == Approved ==>
                  a in members && members[a].status == Approved && after[a].cycle == members[a].cycle)
  {
    var participants := Participants(roster, from);
    VisitsAreSafe(members, identities, participants, |participants|);
    assert participants[..|participants|] == participants;
  }

  class Channel {
    var members: Members
    var identities: Identities
    var introPosted: bool
    var invites: seq<nat>      // identities messaged by inviteMember, in order

    /** The body of the loop over participants. */
    method VisitParticipant(a: Address) returns (unlinked: bool)
      modifies this`members, this`invites
      ensures members == Visit(old(members), identities, a)
      ensures invites == old(invites) + Greet(old(members), identities, a)
      ensures unlinked == (a !in identities)
    {
      var identity := IdentityOf(identities, a);
      unlinked := identity.None?;
      if a !in members {
        members := Join(members, a, identity);
        if identity.Some? { invites := invites + [identity.value]; }
        return;
      }
      var member := members[a];
      if identity.Some? && member.identityId != identity {
        members := Reattach(members, a, identity.value);
        if member.status == Invited { invites := invites + [identity.value]; }
      }
      if member.status == Left {
        members := Reinvite(members, a);
        if identity.Some? { invites := invites + [identity.value]; }
      }
    }

    /** The loop over participants. */
    method VisitParticipants(participants: seq<Address>) returns (hasUnlinked: bool)
      modifies this`members, this`invites
      ensures members == VisitFirst(old(members), identities, participants, |participants|)
      ensures invites == old(invites) + GreetFirst(old(members), identities, participants, |participants|)
      ensures hasUnlinked <==> exists a :: a in participants && a !in identities
    {
      hasUnlinked := false;
      for k := 0 to |participants|
        invariant members == VisitFirst(old(members), identities, participants, k)
        invariant invites == old(invites) + GreetFirst(old(members), identities, participants, k)
        invariant hasUnlinked <==> exists a :: a in participants[..k] && a !in identities
      {
        var unlinked := VisitParticipant(participants[k]);
        hasUnlinked := hasUnlinked || unlinked;
        assert participants[..k + 1] == participants[..k] + [participants[k]];
      }
      assert participants[..|participants|] == participants;
    }

    /** `handleChannelEvent` up to the choice of recipients. */
    method HandleChannelEvent(from: Address, roster: seq<Address>) returns (recipients: set<Address>)
      modifies this`members, this`introPosted, this`invites
      ensures forall a ::
        if a in roster || a == from then VisitedRow(old(members), members, identities, a)
        else AbsentRow(old(members), members, roster != [], a)
      ensures introPosted <==> old(introPosted) || exists a :: (a in roster || a == from) && a !in identities
      ensures var participants := if from in roster then roster else roster + [from];
              invites == old(invites) + ToldFirst(old(members), identities, participants, |participants|)
      ensures recipients == if from in members && members[from].status == Approved
                            then set a | a in members && members[a].status == Approved && members[a].identityId.Some?
                            else {}
    {
      var participants := Participants(roster, from);
      var hasUnlinked := VisitParticipants(participants);
      WhoParticipates(roster, from);
      if roster != [] { members := Sweep(members, participants); }
      assert members == Settled(old(members), identities, roster, from);
      AllRowsAfterAnEvent(old(members), identities, roster, from);
      InvitationsAreExact(old(members), identities, participants, |participants|);
      if hasUnlinked && !introPosted { introPosted := true; }
      recipients := {};
      if from in members && members[from].status == Approved {
        recipients := set a | a in members && members[a].status == Approved && members[a].identityId.Some?;
      }
    }
  }

  // ----- all interleavings -----

  /** One atomic write by a channel event, an owner's command or the app.
      Reads and claims of different answers interleave freely with everything else. */
  datatype Event =
    | JoinE(a: Address, identityId: Option<nat>)
    | ReinviteE(a: Address)
    | ReattachE(a: Address, newIdentityId: nat)
    | SweepE(participants: seq<Address>)
    | AnswerE(a: Address, approve: bool)
    | LeaveE(a: Address)
    | DepartE(a: Address)

  function Apply(members: Members, e: Event): Members {
    match e
    case JoinE(a, identityId) => Join(members, a, identityId)
    case ReinviteE(a) => Reinvite(members, a)
    case ReattachE(a, identityId) => Reattach(members, a, identityId)
    case SweepE(participants) => Sweep(members, participants)
    case AnswerE(a, approve) => ClaimAnswer(members, a, approve)
    case LeaveE(a) => ClaimLeave(members, a)
    case DepartE(a) => Depart(members, a)
  }

  function Run(members: Members, es: seq<Event>): Members
    decreases |es|
  {
    if es == [] then members else Run(Apply(members, es[0]), es[1..])
  }

  predicate Invites(members: Members, e: Event, a: Address) {
    (e.ReinviteE? && e.a == a && a in members) || (e.JoinE? && e.a == a && a !in members)
  }

  /** How often a run invites `a`. */
  function Invitations(members: Members, es: seq<Event>, a: Address): nat
    decreases |es|
  {
    if es == [] then 0
    else (if Invites(members, es[0], a) then 1 else 0) + Invitations(Apply(members, es[0]), es[1..], a)
  }

  function CycleOf(members: Members, a: Address): nat { if a in members then members[a].cycle else 0 }

  /** Approval is always the claim of the current cycle. */
  predicate Answered(members: Members) {
    forall a :: a in members ==>
      && members[a].answered <= members[a].cycle
      && (members[a].status == Approved ==> members[a].answered == members[a].cycle)
      && (members[a].status == Invited ==> members[a].answered < members[a].cycle)
  }

  lemma {:induction false} AnsweredStays(members: Members, es: seq<Event>)
    requires Answered(members)
    ensures Answered(Run(members, es))
    decreases |es|
  {
    if es != [] { AnsweredStays(Apply(members, es[0]), es[1..]); }
  }

  /** Over every run from an empty channel, a row is approved only by an approving claim that came
      after its latest invitation; nothing but an approving claim ever approves. */
  lemma ApprovedOnlyByAnswer(es: seq<Event>, e: Event, a: Address)
    ensures var members := Run(map[], es);
            && (a in members && members[a].status == Approved ==>
                  0 < members[a].answered == members[a].cycle == Invitations(map[], es, a))
            && (a in Apply(members, e) && Apply(members, e)[a].status == Approved ==>
                  || e == AnswerE(a, true)
                  || (a in members && members[a].status == Approved))
  {
    AnsweredStays(map[], es);
    CycleCounts(map[], es, a);
    CyclesArePositive(map[], es);
  }

  lemma {:induction false} CyclesArePositive(members: Members, es: seq<Event>)
    requires forall a :: a in members ==> members[a].cycle > 0
    ensures forall a :: a in Run(members, es) ==> Run(members, es)[a].cycle > 0
    decreases |es|
  {
    if es != [] { CyclesArePositive(Apply(members, es[0]), es[1..]); }
  }

  lemma {:induction false} CycleCounts(members: Members, es: seq<Event>, a: Address)
    ensures CycleOf(Run(members, es), a) == CycleOf(members, a) + Invitations(members, es, a)
    decreases |es|
  {
    if es != [] { CycleCounts(Apply(members, es[0]), es[1..], a); }
  }

  /** The first answer stands: it approves or declines the invited row, and until the address is invited
      again no answer changes that; the row can only leave. */
  lemma {:induction false} FirstAnswerStands(members: Members, es: seq<Event>, a: Address, approve: bool)
    requires a in members && members[a].status == Invited && Invitations(ClaimAnswer(members, a, approve), es, a) == 0
    ensures var answered := ClaimAnswer(members, a, approve);
            && answered[a].status == (if approve then Approved else Declined)
            && a in Run(answered, es) && Run(answered, es)[a].status in {answered[a].status, Left}
  {
    StatusStands(ClaimAnswer(members, a, approve), es, a);
  }

  /** Whoever leaves an approved row, by LEAVE or in the app, stays out until the next invitation,
      whatever anybody answers. */
  lemma LeavingLasts(members: Members, es: seq<Event>, a: Address, inApp: bool)
    requires a in members && members[a].status == Approved
    requires Invitations(Apply(members, if inApp then DepartE(a) else LeaveE(a)), es, a) == 0
    ensures var left := Run(Apply(members, if inApp then DepartE(a) else LeaveE(a)), es);
            a in left && left[a].status == Left
  {
    StatusStands(Apply(members, if inApp then DepartE(a) else LeaveE(a)), es, a);
  }

  lemma {:induction false} StatusStands(members: Members, es: seq<Event>, a: Address)
    requires a in members && members[a].status in {Approved, Declined, Left} && Invitations(members, es, a) == 0
    ensures a in Run(members, es) && Run(members, es)[a].status in {members[a].status, Left}
    decreases |es|
  {
    if es != [] { StatusStands(Apply(members, es[0]), es[1..], a); }
  }

  /** An answer reads an invited row and claims it later. The claim that wins approves the very
      invitation that was read if and only if the row was not invited again in between. */
  lemma WhichInvitationIsApproved(read: Members, es: seq<Event>, a: Address)
    requires a in read && read[a].status == Invited
    requires a in Run(read, es) && Run(read, es)[a].status == Invited
    ensures var claimed := ClaimAnswer(Run(read, es), a, true)[a];
            && claimed.status == Approved
            && (claimed.answered == read[a].cycle <==> Invitations(read, es, a) == 0)
  {
    CycleCounts(read, es, a);
  }

  /** And that does happen. Three channel events: `a` and `b` are in the group, `a` is gone, `a` is
      back. A YES of `a` that was read after the first and is claimed after the third approves the
      second invitation, because the claim's guard looks at the status only. */
  lemma StaleAnswerApprovesLaterInvitation(a: Address, b: Address, i: nat)
    requires a != b
    ensures var identities := map[a := i];
            var read := Settled(map[], identities, [a, b], b);
            var back := Settled(Settled(read, identities, [b], b), identities, [a, b], b);
            && read == map[a := Member(Invited, Some(i), 1, 0), b := Member(Invited, None, 1, 0)]
            && ClaimAnswer(back, a, true) == map[a := Member(Approved, Some(i), 2, 2), b := Member(Invited, None, 1, 0)]
  {
    var identities := map[a := i];
    var first := Member(Invited, Some(i), 1, 0);
    var other := Member(Invited, None, 1, 0);
    VisitTwo(map[], identities, a, b);
    var read := Settled(map[], identities, [a, b], b);
    assert read == map[a := first, b := other];
    assert VisitFirst(read, identities, [b], 1) == Visit(VisitFirst(read, identities, [b], 0), identities, b) == read;
    var gone := Settled(read, identities, [b], b);
    assert gone == map[a := first.(status := Left), b := other];
    VisitTwo(gone, identities, a, b);
  }

  lemma VisitTwo(members: Members, identities: Identities, a: Address, b: Address)
    ensures VisitFirst(members, identities, [a, b], 2) == Visit(Visit(members, identities, a), identities, b)
  {
    assert VisitFirst(members, identities, [a, b], 1)
           == Visit(VisitFirst(members, identities, [a, b], 0), identities, a);
  }
}
