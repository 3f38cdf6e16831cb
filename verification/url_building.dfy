/**
 * Cross-application URL building over the message protocol: a FlaskDrunk
 * answers 'url' messages with what it can build itself, and `url_for` falls
 * back to asking its buddies, in order, when the local build fails.
 */
module UrlBuilding {
  import opened Wrappers
  import opened Messages
  import opened Party

  /** The application's own URL building (`url_adapter.build` under its routes); `None` is a BuildError. */
  type Builder = (AppId, UrlArgs) -> Option<string>

  /** `url_quote`. */
  type Quote = string -> string

  /** The `_anchor` keyword value, if given. */
  function Anchor(args: UrlArgs): Option<string> {
    if "_anchor" in args.values then Some(args.values["_anchor"]) else None
  }

  /** `my_url_for`, i.e. `url_for` with `use_buddies=False`: the local build with `#` and the quoted anchor appended. */
  function LocalUrl(build: Builder, quote: Quote, a: AppId, args: UrlArgs): (r: Option<string>)
    ensures r.None? <==> build(a, args).None?
    ensures r.Some? && Anchor(args).None? ==> r.value == build(a, args).value
    ensures r.Some? && Anchor(args).Some? ==> r.value == build(a, args).value + "#" + quote(Anchor(args).value)
  {
    match build(a, args)
    case None => None
    case Some(u) =>
      match Anchor(args)
      case None => Some(u)
      case Some(anchor) => Some(u + "#" + quote(anchor))
  }

  /**
   * `FlaskDrunk.on_receive`: a 'url' message is answered ('url', url) when
   * the application can build it and ('url', None) when it cannot; any other
   * key falls off the end of the hook, which answers None.
   */
  function OnReceive(build: Builder, quote: Quote, self: AppId, sender: AppId, m: Message): (r: Result<Reply, Fault>)
    ensures m.key != "url" ==> r == Ok(None)
    ensures m.key == "url" && !m.value.Args? ==> r == Err(BadArgs)
    ensures m.key == "url" && m.value.Args? ==>
      && r.Ok? && r.value.Some? && r.value.value.key == "url"
      && (r.value.value.value == Nil <==> LocalUrl(build, quote, self, m.value.args).None?)
      && (r.value.value.value != Nil ==> r.value.value.value == Text(LocalUrl(build, quote, self, m.value.args).value))
  {
    if m.key == "url" then
      match m.value
      case Args(args) =>
        Ok(Some(Message("url", match LocalUrl(build, quote, self, args)
                               case Some(u) => Text(u)
                               case None => Nil)))
      case _ => Err(BadArgs)
    else Ok(None)
  }

  /** The `on_receive` hook of FlaskDrunk `self`. */
  function Hook(build: Builder, quote: Quote, self: AppId): ReceiveHook {
    (sender: AppId, m: Message) => OnReceive(build, quote, self, sender, m)
  }

  /**
   * `buddy_url_for`: send ('url', (endpoint, values)) to the buddy, a
   * FlaskDrunk with no `on_send` hook, and take the second half of its reply.
   */
  function BuddyUrlFor(build: Builder, quote: Quote, self: AppId, buddy: AppId, args: UrlArgs): (r: Result<Value, Fault>)
    ensures r.Ok?
    ensures LocalUrl(build, quote, buddy, args).None? ==> r.value == Nil
    ensures LocalUrl(build, quote, buddy, args).Some? ==> r.value == Text(LocalUrl(build, quote, buddy, args).value)
  {
    match Send(self, Message("url", Args(args)), None, Some(Hook(build, quote, buddy)))
    case Err(f) => Err(f)
    case Ok(None) => Err(NotSubscriptable)
    case Ok(Some(reply)) => Ok(reply.value)
  }

  /** Where the search through the buddies ended. */
  datatype Search = Found(at: nat, url: string) | Exhausted

  /**
   * The buddy loop of `url_for`: ask each buddy in turn and stop at the first
   * answer that is not None; the buddies after it are not asked.
   */
  function AskBuddies(build: Builder, quote: Quote, self: AppId, buddies: seq<AppId>, args: UrlArgs): (r: Search)
    ensures r.Found? ==>
      && r.at < |buddies|
      && LocalUrl(build, quote, buddies[r.at], args) == Some(r.url)
      && forall j | 0 <= j < r.at :: LocalUrl(build, quote, buddies[j], args).None?
    ensures r.Exhausted? ==> forall j | 0 <= j < |buddies| :: LocalUrl(build, quote, buddies[j], args).None?
  {
    if buddies == [] then Exhausted
    else
      var answer := BuddyUrlFor(build, quote, self, buddies[0], args).value;
      if answer.Text? then Found(0, answer.text)
      else
        match AskBuddies(build, quote, self, buddies[1..], args)
        case Found(k, u) => Found(k + 1, u)
        case Exhausted => Exhausted
  }

  /**
   * `FlaskDrunk.url_for` as written: the local build if it succeeds;
   * otherwise a BuildError when `use_buddies` is off, else the first buddy
   * answer.  When no buddy answers, the code after the loop runs with `rv`
   * never assigned (no buddies) or None (anchor given).
   */
  function UrlFor(w: World, build: Builder, quote: Quote, a: AppId, args: UrlArgs, useBuddies: bool): (r: Result<Value, Fault>)
    requires WellFormed(w) && a < |w.apps| && w.apps[a].Drunk?
    ensures LocalUrl(build, quote, a, args).Some? ==> r == Ok(Text(LocalUrl(build, quote, a, args).value))
    ensures LocalUrl(build, quote, a, args).None? && !useBuddies ==> r == Err(BuildError)
    ensures r.Err? ==> r.error in {BuildError, UnboundLocal, NoneConcat}
  {
    match LocalUrl(build, quote, a, args)
    case Some(u) => Ok(Text(u))
    case None =>
      if !useBuddies then Err(BuildError)
      else
        var buddies := Buddies(w, a);
        match AskBuddies(build, quote, a, buddies, args)
        case Found(_, u) => Ok(Text(u))
        case Exhausted =>
          if buddies == [] then Err(UnboundLocal)
          else if Anchor(args).Some? then Err(NoneConcat)
          else Ok(Nil)
  }

  /**
   * `url_for` as evidently intended: as written, except that when no buddy
   * can build the URL the answer is None instead of an exception.
   */
  function UrlForFixed(w: World, build: Builder, quote: Quote, a: AppId, args: UrlArgs, useBuddies: bool): (r: Result<Value, Fault>)
    requires WellFormed(w) && a < |w.apps| && w.apps[a].Drunk?
    ensures useBuddies ==> r.Ok?
    ensures !useBuddies ==> (r == Err(BuildError) <==> LocalUrl(build, quote, a, args).None?)
    ensures useBuddies ==> (r == Ok(Nil) <==>
      LocalUrl(build, quote, a, args).None? &&
      forall b | b in Buddies(w, a) :: LocalUrl(build, quote, b, args).None?)
  {
    match LocalUrl(build, quote, a, args)
    case Some(u) => Ok(Text(u))
    case None =>
      if !useBuddies then Err(BuildError)
      else
        match AskBuddies(build, quote, a, Buddies(w, a), args)
        case Found(_, u) => Ok(Text(u))
        case Exhausted => Ok(Nil)
  }

  /**
   * First answer wins: when the local build fails, `url_for` returns the URL
   * of the first buddy, in buddy order, that can build it.
   */
  lemma FirstBuddyWins(w: World, build: Builder, quote: Quote, a: AppId, args: UrlArgs, k: nat)
    requires WellFormed(w) && a < |w.apps| && w.apps[a].Drunk?
    requires LocalUrl(build, quote, a, args).None?
    requires k < |Buddies(w, a)| && LocalUrl(build, quote, Buddies(w, a)[k], args).Some?
    requires forall j | 0 <= j < k :: LocalUrl(build, quote, Buddies(w, a)[j], args).None?
    ensures UrlFor(w, build, quote, a, args, true) == Ok(Text(LocalUrl(build, quote, Buddies(w, a)[k], args).value))
    ensures AskBuddies(build, quote, a, Buddies(w, a), args).at == k
  {
    var buddies := Buddies(w, a);
    assert LocalUrl(build, quote, buddies[k], args).Some?;
  }

  /** The corrected `url_for` agrees with the code as written whenever the latter returns. */
  lemma FixedAgrees(w: World, build: Builder, quote: Quote, a: AppId, args: UrlArgs, useBuddies: bool)
    requires WellFormed(w) && a < |w.apps| && w.apps[a].Drunk?
    requires UrlFor(w, build, quote, a, args, useBuddies).Ok? || !useBuddies
    ensures UrlForFixed(w, build, quote, a, args, useBuddies) == UrlFor(w, build, quote, a, args, useBuddies)
  {
  }

  /**
   * The code as written raises when no buddy can help: an application that
   * joined alone and cannot build the URL hits `return rv` with `rv` unbound,
   * where the corrected version answers None.
   */
  lemma UnboundWithoutBuddies()
    ensures var w := World([Drunk(false, Some(0))], [[0]]);
      var args := UrlArgs("two:index", map[]);
      && UrlFor(w, (a, x) => None, s => s, 0, args, true) == Err(UnboundLocal)
      && UrlForFixed(w, (a, x) => None, s => s, 0, args, true) == Ok(Nil)
  {
    var w := World([Drunk(false, Some(0))], [[0]]);
    assert Buddies(w, 0) == [] by {
      assert Partiers(w, 0) == [0];
    }
  }

  /** With buddies that all fail and an anchor, the code as written adds a string to None. */
  lemma NoneConcatWithAnchor()
    ensures var w := World([Drunk(false, Some(0)), Drunk(false, Some(0))], [[0, 1]]);
      var args := UrlArgs("two:index", map["_anchor" := "top"]);
      && UrlFor(w, (a, x) => None, s => s, 0, args, true) == Err(NoneConcat)
      && UrlForFixed(w, (a, x) => None, s => s, 0, args, true) == Ok(Nil)
  {
    var w := World([Drunk(false, Some(0)), Drunk(false, Some(0))], [[0, 1]]);
    assert Buddies(w, 0) == [1] by {
      assert Partiers(w, 0) == [0, 1];
      assert 1 in Buddies(w, 0);
    }
  }
}
