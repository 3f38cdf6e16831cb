# wsgi_party in Dafny

A functional model of the two coordination mechanisms of wsgi_party, which lets WSGI
applications mounted in one process find and call each other.

1. **The drinking-buddy protocol** (`wsgi_party.py`). An `MC` dispatcher invites every
   mounted application once. A `FlaskDrunk` application joins at its first invitation
   only. Joining means appending itself to the dispatcher's shared `attendees` list and
   keeping that same list as its `partiers`. Its `buddies` are the other partiers, in
   attendee order. Applications talk through `receive`/`send`, a (key, value) message
   protocol with a built-in ping. `url_for` uses that protocol to ask the buddies, in
   order, for a URL the application cannot build itself.
2. **The partyline bus** (`WSGIParty` and `PartylineOperator`), as the assertions of
   `tests.py` fix it. The bus keeps a registry from service name to handlers in
   registration order. `ask_around` fans out over a service's handlers. It skips the
   handlers of the asking operator and drops the ones that decline (`HighAndDry`). An
   unknown service raises `NoSuchServiceName` unless missing services are ignored.
   `send_invitations` hands the wrapped application one request per invite path. Each
   request carries a new operator under the partyline key.

Everything is immutable data and pure functions:

- Applications and dispatchers are identified by numbers, and new ones take the next
  free index. Handler ids are whatever the application connects; two applications may
  connect the same one. An invitation's operator is numbered by its position in that
  `send_invitations` call's invite list, so the numbers are distinct within one call.
- The aliasing between `partiers` and the dispatcher's `attendees` is kept. An
  application stores which dispatcher admitted it, and its partiers are that
  dispatcher's list.
- Python `None` is `Nil` (for values) or `None` (for replies). Exceptions are
  `Result.Err` values.

Files:

- `wrappers.dfy`: `Option` and `Result`.
- `seqs.dfy`: order-preserving filtering, used for `buddies` and the bus fan-out.
- `messages.dfy`: `receive`/`send`.
- `party.dfy`: `FlaskDrunk.__init__`, the invitation view (`join_party`, `on_party`,
  `party`), `partiers`, `buddies`.
- `mc.dfy`: the `MC` bootstrap.
- `url_building.dfy`: `on_receive`, `buddy_url_for`, `url_for`.
- `partyline.dfy`: the bus and the operator.
- `invitations.dfy`: `send_invitations` and the `WSGIParty` constructor.

Modelling choices:

- The bus excludes a handler by identity: a handler is skipped when it is in the
  asking operator's `handlers` set, which is all the tests' `DummyOperator` has.
- `NoSuchServiceName` is raised only for a service name with no entry in the registry.
  A name with an empty handler list would answer `[]`. The tests only ask about absent
  names (tests.py:136-149), and no registry built by `connect` has an empty list, so
  absent and empty coincide in every state the model reaches.
- The order in which `MC.applications` lists the mounted applications is the
  iteration order of the `mounts` dict (wsgi_party.py:178), which the code does not
  fix. The model takes the mounts as a sequence standing for that iteration order.
  This order decides the attendee order, and so which buddy answers `url_for` first.
- An invitation request without a dispatcher in its environ (wsgi_party.py:21) is
  modelled separately (`Party.StrayInvite`): it ends pregame and then fails, so a
  FlaskDrunk out of pregame may have no dispatcher.
- The documentation of `receive` says a reply always carries the message's own key.
  The built-in ping is an exception: its reply is keyed `'pong'` (`Messages.KeySymmetry`
  needs `m != Ping`). `FlaskDrunk.on_receive` answers Python `None` for keys other than
  `'url'`, because it falls off the end of the hook.

## Model

| member | source | states |
|---|---|---|
| Messages.Receive | wsgi_party.py:64-71 | A ping gets the reply pong whatever the hook. Any other message goes to the `on_receive` hook when there is one. Without a hook the reply carries the message's own key and None. |
| Messages.Send | wsgi_party.py:73-79 | Unless the `on_send` hook raises, `send` answers exactly what `receive` answers for the same sender and message. |
| Messages.PingPong | wsgi_party.py:64-66 | Ping sent to any receiver, whatever its `on_receive` hook, is answered pong. |
| Messages.KeySymmetry | wsgi_party.py:67-71 | Without hooks, the reply to any message other than ping has the message's key. |
| Party.NewDrunk | wsgi_party.py:85-93 | A new FlaskDrunk starts in pregame, with no dispatcher, no partiers and no buddies. The reachable-state invariant still holds. |
| Party.Invite | wsgi_party.py:15-27 | An application in pregame leaves pregame and binds the dispatcher. It is appended as the last attendee, and its `partiers` is that dispatcher's attendee list itself. A FlaskDrunk already out of pregame gets a 404 and nothing changes. A non-party application is not affected. |
| Party.StrayInvite | wsgi_party.py:15-23 | An invitation request with no `mc_dispatcher` in its environ: a pregame FlaskDrunk leaves pregame, binds no dispatcher and the request fails; a joined one gets a 404; a non-party application is not affected. No attendee list changes. |
| Party.StrayInvitePreservesInv | wsgi_party.py:17-23 | A stray invitation keeps the reachable-state invariant. |
| Party.StrayStrands | wsgi_party.py:95-100 | After a stray invitation, the application is stranded: any later MC invitation is a 404, and it has no buddies. |
| Party.JoinOnce | wsgi_party.py:95-100 | After one invitation, any further invitation of the same FlaskDrunk, from any dispatcher, is a 404 that leaves the state unchanged. |
| Party.InvitePreservesInv | wsgi_party.py:17-25 | Invitations keep attendee lists free of duplicates. They also keep each list equal to exactly the FlaskDrunks that joined that dispatcher, so an application attends at most one dispatcher, at most once. |
| Party.Buddies | wsgi_party.py:29-33 | `buddies` never contains the application itself and contains every other partier. |
| Party.BuddiesKeepOrder | wsgi_party.py:29-37 | Under the default `sort_buddies`, an attendee's buddies are its dispatcher's attendee list with its own single slot deleted. Attendee order is kept. |
| Party.BuddiesSeeLaterJoin | wsgi_party.py:23-25 | The partiers list is shared: an application joining later appears at the end of every earlier attendee's buddies. |
| Party.NewcomerBuddies | wsgi_party.py:21-33 | A newcomer's buddies are exactly the applications that joined that dispatcher before it, in joining order. |
| MC.Applications | wsgi_party.py:175-178 | The applications are the root application first, then the mounted ones in the order of the `mounts` sequence, which stands for the dict's iteration order. |
| MC.NewMC | wsgi_party.py:166-173 | A new dispatcher starts with empty attendees and sends exactly one invitation per application, in order. The responses are: joined for a pregame FlaskDrunk at its first invitation, 404 for the others, ignored for non-party apps. The final attendee list is the admitted applications in invitation order. Other dispatchers are untouched and the invariant holds. |
| UrlBuilding.LocalUrl | wsgi_party.py:152-155 | `my_url_for` fails exactly when the application's own build fails. Otherwise it is the built URL, with `#` and the quoted anchor appended when `_anchor` is given. |
| UrlBuilding.OnReceive | wsgi_party.py:106-113 | A `'url'` message is answered `('url', url)` when the application can build it and `('url', None)` when it cannot. A value that is not an (endpoint, values) pair raises. Other keys are answered None. |
| UrlBuilding.BuddyUrlFor | wsgi_party.py:157-160 | Asking a buddy never raises. The answer is the buddy's own local URL for the request, or None when the buddy cannot build it. |
| UrlBuilding.AskBuddies | wsgi_party.py:144-147 | The buddy loop stops at the first buddy that can build the URL and returns that buddy's URL. Every earlier buddy could not build it. When the loop is exhausted, no buddy could. |
| UrlBuilding.UrlFor | wsgi_party.py:137-150 | A local build that succeeds is returned. With `use_buddies` off, a local failure propagates as BuildError. The only other exceptions are the two of the as-written tail. |
| UrlBuilding.FirstBuddyWins | wsgi_party.py:140-147 | When the local build fails, `url_for` returns the URL of the first buddy, in buddy order, that can build it. That buddy is where the loop stops. |
| UrlBuilding.UrlForFixed | wsgi_party.py:140-150 | Corrected tail: with buddies enabled `url_for` never raises. It returns None exactly when neither the application nor any buddy can build the URL. |
| UrlBuilding.FixedAgrees | wsgi_party.py:137-150 | The corrected `url_for` returns the same as the code as written whenever the latter returns normally, and also whenever `use_buddies` is off. |
| UrlBuilding.UnboundWithoutBuddies | wsgi_party.py:140-150 | An application with no buddies that cannot build the URL reaches `return rv` with `rv` unbound. The corrected version answers None. |
| UrlBuilding.NoneConcatWithAnchor | wsgi_party.py:144-149 | When every buddy answers None and an anchor is given, the code as written appends a string to None. The corrected version answers None. |
| Partyline.Connect | tests.py:58-69 | An unknown service gets the list `[handler]`. A known one gets the handler appended at the end, with the earlier entries unchanged. Other services and the missing-service policy are untouched. |
| Partyline.ConnectAllRegistered | tests.py:58-69 | After a run of connects, each service lists its earlier handlers followed by the ones connected to it, in call order. |
| Partyline.ConnectAllServices | tests.py:58-62 | After a run of connects, a service exists exactly when it existed before or was connected to. |
| Partyline.FanOut | tests.py:71-134 | The handlers called are the registered ones not owned by the asker, in registration order. The answers are their outcomes with the declines dropped, in the same order. |
| Partyline.AskAround | tests.py:136-149 | An absent service raises NoSuchServiceName, or gives `[]` when missing services are ignored. For a present service, the result is the fan-out over its registered handlers: those the asker does not own are called in registration order, and the answers are theirs minus the declines. |
| Partyline.AskAroundOthers | tests.py:71-85 | With no operator, or one owning none of the handlers, every handler is called once, in registration order. When none declines, the results are their answers in that order. |
| Partyline.DeclineDropped | tests.py:87-102 | With no operator or an unrelated one, a handler that answers followed by one that declines: both are called, and only the first one's answer is returned. |
| Partyline.AskAroundOwnOnly | tests.py:104-118 | When the operator owns every registered handler, nothing is called and the result is `[]`. |
| Partyline.ConnectThenAsk | tests.py:64-85 | Connecting a handler extends later queries of that service at the end. The new handler is called after all earlier ones unless the asker owns it, and its answer comes last. |
| Partyline.OperatorConnect | tests.py:9-15 | The operator adds the handler to its `handlers` set and forwards exactly (name, handler) to the bus's connect. |
| Partyline.OperatorAskAround | tests.py:17-22 | The operator forwards the query with itself as the operator. It never calls a handler connected through it and calls every other registered one. |
| Partyline.PingBothThenOther | tests.py:9-22 | After two applications connect a ping handler each through their operators, a caller without an operator hears both in connection order. The first application's operator hears only the second application's handler. |
| Invitations.Handshake | tests.py:9-15 | An application's connects through its operator leave the operator holding exactly the handlers offered, and connect them on the bus in call order. |
| Invitations.SendInvitations | tests.py:45-56 | One request per invite path, in order. Each has PATH_INFO equal to that path and a distinct new operator under the partyline key. Each operator holds what the application connected through it, and the bus has every connect of every invitation in order. |
| Invitations.NewParty | tests.py:30-33 | The constructor performs `send_invitations` on an empty registry with the given missing-service policy. There is one request per invite path, each with its path and its operator, and each operator holds what the application connected through it. Each service lists exactly the handlers connected for it during the invitations. |

## Findings

| source | as written | input that shows it | evidently intended | confidence | as-written member | corrected member |
|---|---|---|---|---|---|---|
| wsgi_party.py:140-150 | After a failed local build with no buddies, the loop body never runs. `return rv` is then reached with `rv` never assigned, which raises UnboundLocalError. | An application that joined a dispatcher alone asks `url_for` for an endpoint it does not have. | `url_for` answers None (no URL), as it does when buddies exist but none can build the URL and no anchor is given. | medium, not executed | UrlBuilding.UnboundWithoutBuddies | UrlBuilding.UrlForFixed |
| wsgi_party.py:144-149 | When every buddy answers None, `rv` is None after the loop, so `rv += '#' + url_quote(anchor)` raises TypeError when an `_anchor` was given. | Two attendees, neither able to build the endpoint; the first asks with `_anchor='top'`. | `url_for` answers None. | medium, not executed | UrlBuilding.NoneConcatWithAnchor | UrlBuilding.UrlForFixed |

## Left out

- URL building itself is an abstract `Builder` function. This covers `url_adapter.build`, `inject_url_defaults`, popping `_external`/`_method`, and `test_request_context`. `url_quote` is an abstract `Quote` function. Blueprint endpoint prefixing (wsgi_party.py:126-131) is not modelled, because it depends on Flask's request context.
- `sort_buddies` is modelled only as its default, the identity (wsgi_party.py:35-37). An override is an arbitrary reordering with nothing to check it against.
- Only `FlaskDrunk` participates in the drinking-buddy protocol. A bare `DrinkingBuddy` user without an `on_party` hook, which could join repeatedly, is not modelled.
- The `on_send` hook is modelled only as something that may raise. Side effects it has on application state are not modelled.
- WSGI plumbing (`create_environ`, `run_wsgi_app`, `start_response`) is not modelled. The MC passes one environ dict to every application; the model hands each application a separate invitation. The environ of a partyline invitation holds only `PATH_INFO` and the operator.
- `DispatcherMiddleware` prefix routing of ordinary requests is not modelled.
- `WSGIParty.__call__` pass-through (tests.py:35-43) is not modelled, because it is pure WSGI plumbing.
- `send_all` is not modelled: neither wsgi_party.py nor tests.py defines it.
- Handler exceptions other than `HighAndDry` are not modelled. A handler's outcome is a total answer-or-decline value.
- Concurrency is not modelled; everything is sequential.
- The partyline key is the literal `"partyline"`, the default in the Pyramid example. The tests only refer to the attribute.
- The application answering invitations is a pure function from the request to the connects it makes. An application-side join-once flag, as in the Flask and Pyramid example apps, is not modelled.
- OperatorConnect: does not return the bus's `connect` result, because the bus's `connect` yields nothing of consequence. The tests check the forwarding with a stub bus that returns a marker.
- The demo applications, HTML template, `run_simple` bootstrap (wsgi_party.py:181-236), `setup.py`, and the Flask and Pyramid example apps are not modelled.
