// guardedHead: following redirects, each target validated before it is contacted.
module NetworkGuard {
  import opened Wrappers

  datatype Method = Head | Get

  // location is empty when the header is absent
  datatype Response = Failed(error: string) | Answer(status: int, location: string)

  // the validated target: its URL and the addresses it was resolved to
  datatype Target = Target(url: string, addresses: seq<string>)

  // validate is assertPublicHttpTarget at the i-th step (its answers may change from step to step: DNS does);
  // request is one pinned request; join is new URL(location, base)
  datatype World = World(validate: (nat, string) -> Result<Target, string>,
                         request: (nat, Target, Method) -> Response,
                         join: (string, Target) -> Result<string, string>)

  datatype Outcome =
    | Responded(response: Response, target: Target)
    | Stopped(error: string, target: Target)
    | Rejected(error: string)           // thrown by the validation or by a malformed location
    | UnexpectedState

  const TOO_MANY := "Maximum redirects exceeded"

  predicate IsRedirect(r: Response) {
    r.Answer? && r.status in {301, 302, 303, 307, 308} && r.location != ""
  }

  /** A failed HEAD is tried again as GET; if that fails too, the first failure stands. */
  function Fetched(w: World, i: nat, t: Target): Response {
    var head := w.request(i, t, Head);
    if head.Answer? then head
    else
      var get := w.request(i, t, Get);
      if get.Answer? then get else head
  }

  // a step of the loop: the URL at hand and the target it was validated to
  datatype Contact = Contact(url: string, target: Target)

  /** The URL to which the i-th target redirects. */
  predicate LeadsTo(w: World, i: nat, c: Contact, next: string) {
    var res := Fetched(w, i, c.target);
    IsRedirect(res) && w.join(res.location, c.target) == Ok(next)
  }

  /** Every contacted target was validated at its own step, for the URL that the redirects had led to. */
  ghost predicate Chain(w: World, url: string, contacts: seq<Contact>) {
    forall i :: 0 <= i < |contacts| ==> Step(w, url, contacts, i)
  }

  predicate Step(w: World, url: string, contacts: seq<Contact>, i: nat)
    requires i < |contacts|
  {
    && w.validate(i, contacts[i].url) == Ok(contacts[i].target)
    && if i == 0 then contacts[i].url == url else LeadsTo(w, i - 1, contacts[i - 1], contacts[i].url)
  }

  /** The URL that comes after the contacts. */
  predicate AtHand(w: World, url: string, contacts: seq<Contact>, current: string) {
    if contacts == [] then current == url else LeadsTo(w, |contacts| - 1, contacts[|contacts| - 1], current)
  }

  /** What each way of ending says about the last contact. */
  ghost predicate Ends(w: World, url: string, maxRedirects: int, contacts: seq<Contact>, r: Outcome) {
    match r
    case UnexpectedState => contacts == []
    case Rejected(error) =>
      (exists current :: AtHand(w, url, contacts, current) && w.validate(|contacts|, current) == Err(error))
      || (contacts != [] && BadLocation(w, |contacts| - 1, contacts[|contacts| - 1], error))
    case Responded(response, target) =>
      contacts != [] && target == contacts[|contacts| - 1].target
      && response == Fetched(w, |contacts| - 1, target) && response.Answer? && !IsRedirect(response)
    case Stopped(error, target) =>
      contacts != [] && target == contacts[|contacts| - 1].target
      && var res := Fetched(w, |contacts| - 1, target);
      if IsRedirect(res) then error == TOO_MANY && |contacts| == maxRedirects + 1 else res == Failed(error)
  }

  predicate BadLocation(w: World, i: nat, c: Contact, error: string) {
    var res := Fetched(w, i, c.target);
    IsRedirect(res) && w.join(res.location, c.target) == Err(error)
  }

  lemma OneMoreContact(w: World, url: string, contacts: seq<Contact>, c: Contact)
    requires Chain(w, url, contacts) && AtHand(w, url, contacts, c.url) && w.validate(|contacts|, c.url) == Ok(c.target)
    ensures Chain(w, url, contacts + [c])
  {
    forall i | 0 <= i < |contacts| + 1 ensures Step(w, url, contacts + [c], i) {
      assert i < |contacts| ==> Step(w, url, contacts, i);
    }
  }

  /** The answer to HEAD or, only if HEAD failed, the answer to GET. */
  predicate IsReply(w: World, i: int, t: Target, res: Response) {
    && i >= 0 && res.Answer?
    && (w.request(i, t, Head).Answer? ==> res == w.request(i, t, Head))
    && (w.request(i, t, Head).Failed? ==> res == w.request(i, t, Get))
  }

  /** Each further contact is where the answer of the one before redirects to, validated for that URL. */
  lemma RedirectsAreFollowed(w: World, url: string, contacts: seq<Contact>, i: nat)
    requires Chain(w, url, contacts) && i + 1 < |contacts|
    ensures w.validate(i + 1, contacts[i + 1].url) == Ok(contacts[i + 1].target)
    ensures exists res ::
      && IsReply(w, i, contacts[i].target, res) && res.status in {301, 302, 303, 307, 308} && res.location != ""
      && w.join(res.location, contacts[i].target) == Ok(contacts[i + 1].url)
  {
    assert Step(w, url, contacts, i + 1);
    assert IsReply(w, i, contacts[i].target, Fetched(w, i, contacts[i].target));
  }

  /** Every allowed redirect was followed and one more came. */
  ghost predicate Exhausted(w: World, contacts: seq<Contact>, maxRedirects: int, r: Outcome) {
    r.Stopped? && r.error == TOO_MANY && |contacts| == maxRedirects + 1
    && exists res ::
         IsReply(w, maxRedirects, r.target, res) && res.status in {301, 302, 303, 307, 308} && res.location != ""
  }

  /**
    * At most maxRedirects + 1 targets are contacted, each validated;
    * the final fallback needs a negative maxRedirects.
    */
  method GuardedHead(w: World, url: string, maxRedirects: int) returns (r: Outcome, ghost contacts: seq<Contact>)
    ensures |contacts| <= if maxRedirects < 0 then 0 else maxRedirects + 1
    ensures Chain(w, url, contacts) && Ends(w, url, maxRedirects, contacts, r)
    ensures r.UnexpectedState? <==> maxRedirects < 0
    ensures r.Responded? ==>
      && IsReply(w, |contacts| - 1, r.target, r.response)
      && (r.response.status in {301, 302, 303, 307, 308} ==> r.response.location == "")
    ensures r.Stopped? && !Exhausted(w, contacts, maxRedirects, r) ==>
      w.request(|contacts| - 1, r.target, Head) == Failed(r.error) && w.request(|contacts| - 1, r.target, Get).Failed?
  {
    var current := url;
    contacts := [];
    var redirect := 0;
    while redirect <= maxRedirects
      invariant redirect == |contacts| && (maxRedirects >= 0 ==> redirect <= maxRedirects)
        && (maxRedirects < 0 ==> redirect == 0)
      invariant Chain(w, url, contacts) && AtHand(w, url, contacts, current)
      decreases maxRedirects - redirect
    {
      var info := w.validate(redirect, current);
      if info.Err? {
        return Rejected(info.error), contacts;
      }
      var target := info.value;
      OneMoreContact(w, url, contacts, Contact(current, target));
      contacts := contacts + [Contact(current, target)];
      var res := Fetched(w, redirect, target);
      if res.Failed? {
        return Stopped(res.error, target), contacts;
      }
      if IsRedirect(res) {
        if redirect == maxRedirects {
          assert IsReply(w, maxRedirects, target, res);
          return Stopped(TOO_MANY, target), contacts;
        }
        var next := w.join(res.location, target);
        if next.Err? {
          return Rejected(next.error), contacts;
        }
        current := next.value;
        redirect := redirect + 1;
        continue;
      }
      return Responded(res, target), contacts;
    }
    r := UnexpectedState;
  }
}
