/**
 * The MC dispatcher's bootstrap: a new dispatcher starts with no attendees
 * and sends the invitation request once to each application, root first,
 * then the mounted ones.
 */
module MC {
  import opened Wrappers
  import opened Messages
  import opened Party

  /** A mount: the path prefix and the application mounted under it. */
  type Mount = (string, AppId)

  /** `MC.applications`: the root application, then every mounted one, partiers or not. */
  function Applications(root: AppId, mounts: seq<Mount>): (r: seq<AppId>)
    ensures |r| == |mounts| + 1 && r[0] == root
    ensures forall i | 0 <= i < |mounts| :: r[i + 1] == mounts[i].1
  {
    [root] + seq(|mounts|, i requires 0 <= i < |mounts| => mounts[i].1)
  }

  /** Every application in `apps` exists in `w`. */
  predicate AllKnown(w: World, apps: seq<AppId>) {
    forall i | 0 <= i < |apps| :: apps[i] < |w.apps|
  }

  /** Application `a` would join a dispatcher that invites it now. */
  predicate Admissible(w: World, a: AppId)
    requires a < |w.apps|
  {
    w.apps[a].Drunk? && w.apps[a].pregame
  }

  /**
   * The applications that a dispatcher inviting `apps` in order admits,
   * starting from `w`: those in pregame, each at its first invitation only.
   */
  function Newcomers(w: World, apps: seq<AppId>): seq<AppId>
    requires AllKnown(w, apps)
  {
    if apps == [] then []
    else
      var init, a := apps[..|apps| - 1], apps[|apps| - 1];
      Newcomers(w, init) + (if Admissible(w, a) && a !in init then [a] else [])
  }

  /** The answer the `j`-th invitation of `apps` gets, judged from the state `w` before the first one. */
  function Expected(w: World, apps: seq<AppId>, j: nat): Response
    requires AllKnown(w, apps) && j < |apps|
  {
    var a := apps[j];
    if w.apps[a] == Bystander then Ignored
    else if Admissible(w, a) && a !in apps[..j] then Joined(a)
    else NotFound
  }

  /**
   * The bootstrap of dispatcher `d` after its first `i` invitations of `apps`,
   * started from `w`: every other dispatcher untouched, the admitted ones
   * listed in order and marked as attending `d`, one response per invitation.
   */
  predicate Progress(w: World, w': World, d: McId, apps: seq<AppId>, i: nat, responses: seq<Response>)
    requires AllKnown(w, apps) && i <= |apps|
  {
    && |w'.apps| == |w.apps| && |w'.attendees| == d + 1 && w'.attendees[..d] == w.attendees
    && Inv(w')
    && w'.attendees[d] == Newcomers(w, apps[..i])
    && (forall a | 0 <= a < |w.apps| ::
          w'.apps[a] == if Admissible(w, a) && a in apps[..i] then Drunk(false, Some(d)) else w.apps[a])
    && |responses| == i
    && (forall j | 0 <= j < i :: responses[j] == Expected(w, apps, j))
  }

  /** A fresh dispatcher with an empty attendee list keeps the invariant. */
  lemma FreshDispatcher(w: World)
    requires Inv(w)
    ensures Inv(World(w.apps, w.attendees + [[]]))
  {
    var w' := World(w.apps, w.attendees + [[]]);
    forall a, d' | 0 <= a < |w'.apps| && 0 <= d' < |w'.attendees| && Attends(w', a, d')
      ensures a in w'.attendees[d']
    {
      assert Attends(w, a, d');
    }
  }

  /** One more invitation advances the bootstrap by one application. */
  lemma InviteStep(w: World, w': World, d: McId, apps: seq<AppId>, i: nat, responses: seq<Response>)
    requires AllKnown(w, apps) && i < |apps|
    requires Progress(w, w', d, apps, i, responses)
    ensures apps[i] < |w'.apps| && d < |w'.attendees| && WellFormed(w')
    ensures var r := Invite(w', apps[i], d);
      Progress(w, r.0, d, apps, i + 1, responses + [r.1])
  {
    var a := apps[i];
    InvitePreservesInv(w', a, d);
    var r := Invite(w', a, d);
    assert apps[..i + 1][..i] == apps[..i];
    assert apps[..i + 1] == apps[..i] + [a];
    var rs := responses + [r.1];
    forall j | 0 <= j < i + 1 ensures rs[j] == Expected(w, apps, j) {
      if j < i {
        assert rs[j] == responses[j];
      }
    }
  }

  /**
   * `MC.__init__`: create a dispatcher `d` with an empty attendee list and run
   * the invitation request once for each of `Applications(root, mounts)`, in
   * order.  Each application in pregame joins at its first invitation; a
   * repeated or non-pregame one gets a 404; nothing else changes.
   */
  method NewMC(w: World, root: AppId, mounts: seq<Mount>) returns (w': World, d: McId, responses: seq<Response>)
    requires Inv(w) && root < |w.apps|
    requires forall i | 0 <= i < |mounts| :: mounts[i].1 < |w.apps|
    ensures d == |w.attendees| && |w'.attendees| == d + 1 && w'.attendees[..d] == w.attendees
    ensures Inv(w')
    ensures AllKnown(w, Applications(root, mounts))
    ensures w'.attendees[d] == Newcomers(w, Applications(root, mounts))
    ensures |responses| == |mounts| + 1
    ensures forall j | 0 <= j < |responses| :: responses[j] == Expected(w, Applications(root, mounts), j)
    ensures |w'.apps| == |w.apps|
    ensures forall a | 0 <= a < |w.apps| ::
      w'.apps[a] == if Admissible(w, a) && a in Applications(root, mounts) then Drunk(false, Some(d)) else w.apps[a]
  {
    var apps := Applications(root, mounts);
    d := |w.attendees|;
    FreshDispatcher(w);
    w' := World(w.apps, w.attendees + [[]]);
    responses := [];
    var i := 0;
    while i < |apps|
      invariant i <= |apps|
      invariant Progress(w, w', d, apps, i, responses)
    {
      InviteStep(w, w', d, apps, i, responses);
      var r := Invite(w', apps[i], d);
      w' := r.0;
      responses := responses + [r.1];
      i := i + 1;
    }
    assert apps[..i] == apps;
  }
}
