/**
 * Joining the party: each FlaskDrunk application, invited once through the
 * dispatcher, appends itself to the dispatcher's shared attendee list and
 * keeps that very list as its `partiers`; its `buddies` are the partiers
 * other than itself.
 */
module Party {
  import opened Wrappers
  import opened Seqs
  import opened Messages

  /** A dispatcher (an MC instance), by identity: its index among the dispatchers created so far. */
  type McId = nat

  /**
   * The party state of one mounted application.  A FlaskDrunk carries the
   * join-once flag `pregame` and the dispatcher that admitted it; any other
   * WSGI application answers the invitation path without joining.
   */
  datatype App =
    | Drunk(pregame: bool, dispatcher: Option<McId>)
    | Bystander

  /** Every application, and the attendee list of every dispatcher. */
  datatype World = World(apps: seq<App>, attendees: seq<seq<AppId>>)

  /** The outcome of one invitation request. */
  datatype Response =
    | Joined(repr: AppId)   // party() returned repr(self)
    | NotFound              // on_party aborted with 404
    | Ignored               // the application has no invitation view
    | Failed                // party() raised: the request carried no dispatcher

  /** Every dispatcher an application refers to exists. */
  predicate WellFormed(w: World) {
    forall a | 0 <= a < |w.apps| && w.apps[a].Drunk? && w.apps[a].dispatcher.Some? ::
      w.apps[a].dispatcher.value < |w.attendees|
  }

  /** Application `a` has joined dispatcher `d`. */
  predicate Attends(w: World, a: AppId, d: McId) {
    a < |w.apps| && w.apps[a] == Drunk(false, Some(d))
  }

  /**
   * The states the model can reach: attendee lists name existing applications,
   * hold no duplicates, and list exactly the FlaskDrunks that joined them; a
   * FlaskDrunk still in pregame has no dispatcher.  (The converse fails: a
   * stray invitation ends pregame without binding one, see `StrayInvite`.)
   */
  predicate Inv(w: World) {
    && WellFormed(w)
    && (forall a | 0 <= a < |w.apps| && w.apps[a].Drunk? ::
          w.apps[a].pregame ==> w.apps[a].dispatcher.None?)
    && (forall d | 0 <= d < |w.attendees| :: NoDup(w.attendees[d]))
    && (forall d, i | 0 <= d < |w.attendees| && 0 <= i < |w.attendees[d]| ::
          Attends(w, w.attendees[d][i], d))
    && (forall a, d | 0 <= a < |w.apps| && 0 <= d < |w.attendees| && Attends(w, a, d) ::
          a in w.attendees[d])
  }

  /** The world before any application or dispatcher exists. */
  const Empty := World([], [])

  /** `FlaskDrunk.__init__`: a new application in pregame, with no dispatcher and no partiers. */
  function NewDrunk(w: World): (r: (World, AppId))
    ensures r.1 == |w.apps| && |r.0.apps| == |w.apps| + 1 && r.0.apps[..|w.apps|] == w.apps
    ensures r.0.attendees == w.attendees
    ensures r.0.apps[r.1].Drunk? && r.0.apps[r.1].pregame
    ensures Inv(w) ==> Inv(r.0)
    ensures Inv(w) ==> Partiers(r.0, r.1) == [] && Buddies(r.0, r.1) == []
  {
    (World(w.apps + [Drunk(true, None)], w.attendees), |w.apps|)
  }

  /** A mounted WSGI application that does not take part in the party. */
  function NewBystander(w: World): (r: (World, AppId))
    ensures r.1 == |w.apps| && |r.0.apps| == |w.apps| + 1 && r.0.apps[..|w.apps|] == w.apps
    ensures r.0.attendees == w.attendees && r.0.apps[r.1] == Bystander
    ensures Inv(w) ==> Inv(r.0)
  {
    (World(w.apps + [Bystander], w.attendees), |w.apps|)
  }

  /** `partiers`: the attendee list of the application's dispatcher itself, or empty before joining. */
  function Partiers(w: World, a: AppId): seq<AppId>
    requires WellFormed(w) && a < |w.apps| && w.apps[a].Drunk?
  {
    match w.apps[a].dispatcher
    case None => []
    case Some(d) => w.attendees[d]
  }

  /** `buddies` under the default `sort_buddies`: every partier except the application itself. */
  function Buddies(w: World, a: AppId): (r: seq<AppId>)
    requires WellFormed(w) && a < |w.apps| && w.apps[a].Drunk?
    ensures a !in r
    ensures forall b :: b in r <==> b in Partiers(w, a) && b != a
  {
    Without(Partiers(w, a), a)
  }

  /**
   * The invitation request reaching application `a` from dispatcher `d`:
   * `join_party`, which runs `on_party` (reject unless in pregame, then leave
   * pregame) and then `party` (bind the dispatcher, append to its attendees,
   * take its attendee list as `partiers`).
   */
  function Invite(w: World, a: AppId, d: McId): (r: (World, Response))
    requires WellFormed(w) && a < |w.apps| && d < |w.attendees|
    ensures WellFormed(r.0) && |r.0.apps| == |w.apps| && |r.0.attendees| == |w.attendees|
    ensures w.apps[a] == Bystander ==> r == (w, Ignored)
    ensures w.apps[a].Drunk? && !w.apps[a].pregame ==> r == (w, NotFound)
    ensures w.apps[a].Drunk? && w.apps[a].pregame ==>
      && r.1 == Joined(a)
      && r.0.apps == w.apps[a := Drunk(false, Some(d))]
      && r.0.attendees == w.attendees[d := w.attendees[d] + [a]]
      && Partiers(r.0, a) == r.0.attendees[d]
      && r.0.attendees[d][|r.0.attendees[d]| - 1] == a
  {
    match w.apps[a]
    case Bystander => (w, Ignored)
    case Drunk(pregame, _) =>
      if !pregame then (w, NotFound)
      else (World(w.apps[a := Drunk(false, Some(d))], w.attendees[d := w.attendees[d] + [a]]), Joined(a))
  }

  /** Invitations keep the invariant: in particular an application appears at most once among all attendees. */
  lemma InvitePreservesInv(w: World, a: AppId, d: McId)
    requires Inv(w) && a < |w.apps| && d < |w.attendees|
    ensures Inv(Invite(w, a, d).0)
  {
    var w' := Invite(w, a, d).0;
    if w.apps[a].Drunk? && w.apps[a].pregame {
      assert forall d' | 0 <= d' < |w.attendees| :: a !in w.attendees[d'] by {
        forall d', i | 0 <= d' < |w.attendees| && 0 <= i < |w.attendees[d']|
          ensures w.attendees[d'][i] != a
        {
          assert Attends(w, w.attendees[d'][i], d');
        }
      }
      forall d' | 0 <= d' < |w'.attendees| ensures NoDup(w'.attendees[d']) {
        if d' == d {
          assert NoDup(w.attendees[d]);
        }
      }
      forall d', i | 0 <= d' < |w'.attendees| && 0 <= i < |w'.attendees[d']|
        ensures Attends(w', w'.attendees[d'][i], d')
      {
        if d' == d && i == |w.attendees[d]| {
        } else {
          assert w'.attendees[d'][i] == w.attendees[d'][i];
          assert Attends(w, w.attendees[d'][i], d');
        }
      }
      forall b, d' | 0 <= b < |w'.apps| && 0 <= d' < |w'.attendees| && Attends(w', b, d')
        ensures b in w'.attendees[d']
      {
        if b != a {
          assert Attends(w, b, d');
          assert b in w.attendees[d'];
        }
      }
    }
  }

  /**
   * A request to the invitation path that carries no dispatcher in its
   * environ (one from outside the MC): `on_party` still ends pregame, then
   * `party` binds no dispatcher and raises when it appends to the missing
   * attendee list, so the application keeps its empty `partiers`.
   */
  function StrayInvite(w: World, a: AppId): (r: (World, Response))
    requires WellFormed(w) && a < |w.apps|
    ensures WellFormed(r.0) && |r.0.apps| == |w.apps| && r.0.attendees == w.attendees
    ensures w.apps[a] == Bystander ==> r == (w, Ignored)
    ensures w.apps[a].Drunk? && !w.apps[a].pregame ==> r == (w, NotFound)
    ensures w.apps[a].Drunk? && w.apps[a].pregame ==>
      && r.1 == Failed
      && r.0.apps == w.apps[a := Drunk(false, None)]
  {
    match w.apps[a]
    case Bystander => (w, Ignored)
    case Drunk(pregame, _) =>
      if !pregame then (w, NotFound)
      else (World(w.apps[a := Drunk(false, None)], w.attendees), Failed)
  }

  /** A stray invitation keeps the invariant: no attendee list changes. */
  lemma StrayInvitePreservesInv(w: World, a: AppId)
    requires Inv(w) && a < |w.apps|
    ensures Inv(StrayInvite(w, a).0)
  {
    var w' := StrayInvite(w, a).0;
    if w.apps[a].Drunk? && w.apps[a].pregame {
      forall d, i | 0 <= d < |w'.attendees| && 0 <= i < |w'.attendees[d]|
        ensures Attends(w', w'.attendees[d][i], d)
      {
        assert Attends(w, w.attendees[d][i], d);
      }
      forall b, d | 0 <= b < |w'.apps| && 0 <= d < |w'.attendees| && Attends(w', b, d)
        ensures b in w'.attendees[d]
      {
        assert Attends(w, b, d);
      }
    }
  }

  /**
   * A stray invitation strands an application in pregame: every later
   * invitation, from any dispatcher, is a 404, and it never has buddies.
   */
  lemma StrayStrands(w: World, a: AppId, d: McId)
    requires Inv(w) && a < |w.apps| && w.apps[a].Drunk? && w.apps[a].pregame && d < |w.attendees|
    ensures var w' := StrayInvite(w, a).0;
      && Invite(w', a, d) == (w', NotFound)
      && Buddies(w', a) == []
  {
  }

  /** An application joins at most once: any later invitation, from any dispatcher, is a 404 that changes nothing. */
  lemma JoinOnce(w: World, a: AppId, d: McId, d': McId)
    requires WellFormed(w) && a < |w.apps| && w.apps[a].Drunk? && d < |w.attendees| && d' < |w.attendees|
    ensures Invite(Invite(w, a, d).0, a, d') == (Invite(w, a, d).0, NotFound)
  {
  }

  /** An attendee's buddies are its dispatcher's attendees with its own single slot deleted, in attendee order. */
  lemma BuddiesKeepOrder(w: World, a: AppId, d: McId)
    requires Inv(w) && d < |w.attendees| && Attends(w, a, d)
    ensures a in w.attendees[d]
    ensures var p, k := w.attendees[d], IndexOf(w.attendees[d], a);
      Buddies(w, a) == p[..k] + p[k + 1..]
  {
    assert Partiers(w, a) == w.attendees[d];
    WithoutOnce(w.attendees[d], a);
  }

  /** The attendee list is shared: an application joining later shows up at the end of every earlier attendee's buddies. */
  lemma BuddiesSeeLaterJoin(w: World, a: AppId, b: AppId, d: McId)
    requires Inv(w) && d < |w.attendees| && Attends(w, a, d)
    requires b < |w.apps| && w.apps[b].Drunk? && w.apps[b].pregame
    ensures Buddies(Invite(w, b, d).0, a) == Buddies(w, a) + [b]
  {
    WithoutAppend(w.attendees[d], b, a);
  }

  /** A newcomer's buddies are exactly the applications that joined before it, in joining order. */
  lemma NewcomerBuddies(w: World, b: AppId, d: McId)
    requires Inv(w) && d < |w.attendees|
    requires b < |w.apps| && w.apps[b].Drunk? && w.apps[b].pregame
    ensures Buddies(Invite(w, b, d).0, b) == w.attendees[d]
  {
    var p := w.attendees[d];
    assert b !in p by {
      forall i | 0 <= i < |p| ensures p[i] != b {
        assert Attends(w, p[i], d);
      }
    }
    WithoutAppend(p, b, b);
    WithoutAbsent(p, b);
  }
}
