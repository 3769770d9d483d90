/**
 * The anchor (WireGuard relay) side of `register_urbit`
 * (api/urbit.py:723-798): the scan for services already registered, the
 * two registration decisions, and the poll that waits until the relay
 * reports the pier's URL and its four ports.
 */
module Anchor {
  import opened Wrappers
  import opened Strings

  /** One entry of `anchor_data['subdomains']`. */
  datatype Subdomain = Subdomain(url: string, svcType: string, status: string, port: Option<int>)

  /** The five flags of api/urbit.py:731-735. */
  datatype Services = Services(urbitWeb: bool, urbitAmes: bool, minio: bool, minioConsole: bool, minioBucket: bool)

  /** A `wg.register_service(name, kind, url)` call. */
  datatype ServiceCall = ServiceCall(name: string, kind: string)

  /** `url.split('.')[-3]`; None where the URL has fewer than three labels (IndexError). */
  function ThirdLabelFromEnd(url: string): (r: Option<string>)
    ensures r.Some? <==> |Split(url, '.')| >= 3
    ensures r.Some? ==> '.' !in r.value
  {
    var parts := Split(url, '.');
    if |parts| >= 3 then Some(parts[|parts| - 3]) else None
  }

  /** Some entry names the pier as its owner and has service type `svc`. */
  predicate HasService(patp: string, subs: seq<Subdomain>, svc: string)
  {
    exists i :: 0 <= i < |subs| && ThirdLabelFromEnd(subs[i].url) == Some(patp) && subs[i].svcType == svc
  }

  /** Some entry's URL has fewer than three labels. */
  predicate HasShortUrl(subs: seq<Subdomain>)
  {
    exists i :: 0 <= i < |subs| && ThirdLabelFromEnd(subs[i].url).None?
  }

  /**
   * The scan of api/urbit.py:737-750: the flags say which of the five
   * services some entry already registers for the pier; None is the
   * IndexError raised by the first URL with fewer than three labels.
   */
  method ScanServices(patp: string, subs: seq<Subdomain>) returns (found: Option<Services>)
    ensures found.None? <==> HasShortUrl(subs)
    ensures found.Some? ==> found.value == Services(
      HasService(patp, subs, "urbit-web"), HasService(patp, subs, "urbit-ames"),
      HasService(patp, subs, "minio"), HasService(patp, subs, "minio-console"),
      HasService(patp, subs, "minio-bucket"))
  {
    var urbitWeb, urbitAmes, minio, minioConsole, minioBucket := false, false, false, false, false;
    var i := 0;
    while i < |subs|
      invariant 0 <= i <= |subs|
      invariant !HasShortUrl(subs[..i])
      invariant urbitWeb == HasService(patp, subs[..i], "urbit-web")
      invariant urbitAmes == HasService(patp, subs[..i], "urbit-ames")
      invariant minio == HasService(patp, subs[..i], "minio")
      invariant minioConsole == HasService(patp, subs[..i], "minio-console")
      invariant minioBucket == HasService(patp, subs[..i], "minio-bucket")
    {
      var owner := ThirdLabelFromEnd(subs[i].url);
      if owner.None? {
        assert subs[..i + 1][i] == subs[i];
        assert forall j :: 0 <= j < i ==> subs[..i + 1][j] == subs[..i][j];
        HasShortUrlPrefix(subs, i + 1);
        return None;
      }
      var svc := subs[i].svcType;
      if owner.value == patp {
        if svc == "urbit-web" { urbitWeb := true; }
        if svc == "urbit-ames" { urbitAmes := true; }
        if svc == "minio" { minio := true; }
        if svc == "minio-console" { minioConsole := true; }
        if svc == "minio-bucket" { minioBucket := true; }
      }
      HasServiceStep(patp, subs, i, "urbit-web");
      HasServiceStep(patp, subs, i, "urbit-ames");
      HasServiceStep(patp, subs, i, "minio");
      HasServiceStep(patp, subs, i, "minio-console");
      HasServiceStep(patp, subs, i, "minio-bucket");
      ShortUrlStep(subs, i);
      i := i + 1;
    }
    assert subs[..i] == subs;
    return Some(Services(urbitWeb, urbitAmes, minio, minioConsole, minioBucket));
  }

  lemma HasServiceStep(patp: string, subs: seq<Subdomain>, i: nat, svc: string)
    requires i < |subs|
    ensures HasService(patp, subs[..i + 1], svc) <==>
            HasService(patp, subs[..i], svc) || (ThirdLabelFromEnd(subs[i].url) == Some(patp) && subs[i].svcType == svc)
  {
    var a, b := subs[..i], subs[..i + 1];
    assert forall j :: 0 <= j < i ==> b[j] == a[j];
    assert b[i] == subs[i];
    if HasService(patp, b, svc) {
      var j :| 0 <= j < |b| && ThirdLabelFromEnd(b[j].url) == Some(patp) && b[j].svcType == svc;
      if j < i { assert a[j] == b[j]; }
    }
  }

  lemma ShortUrlStep(subs: seq<Subdomain>, i: nat)
    requires i < |subs| && ThirdLabelFromEnd(subs[i].url).Some? && !HasShortUrl(subs[..i])
    ensures !HasShortUrl(subs[..i + 1])
  {
    var a, b := subs[..i], subs[..i + 1];
    forall j | 0 <= j < |b|
      ensures ThirdLabelFromEnd(b[j].url).Some?
    {
      if j < i { assert b[j] == a[j]; } else { assert b[j] == subs[i]; }
    }
  }

  lemma HasShortUrlPrefix(subs: seq<Subdomain>, n: nat)
    requires n <= |subs| && HasShortUrl(subs[..n])
    ensures HasShortUrl(subs)
  {
    var j :| 0 <= j < n && ThirdLabelFromEnd(subs[..n][j].url).None?;
    assert subs[..n][j] == subs[j];
  }

  /**
   * api/urbit.py:753-760: the pier is registered as `urbit` unless both
   * urbit services exist, and `s3.<patp>` as `minio` unless all three minio
   * services exist, in that order.
   */
  function RegistrationCalls(patp: string, s: Services): (calls: seq<ServiceCall>)
    ensures ServiceCall(patp, "urbit") in calls <==> !(s.urbitWeb && s.urbitAmes)
    ensures ServiceCall("s3." + patp, "minio") in calls <==> !(s.minio && s.minioConsole && s.minioBucket)
    ensures forall c :: c in calls ==> c == ServiceCall(patp, "urbit") || c == ServiceCall("s3." + patp, "minio")
    ensures |calls| <= 2
  {
    assert patp != "s3." + patp;
    (if !(s.urbitWeb && s.urbitAmes) then [ServiceCall(patp, "urbit")] else [])
    + (if !(s.minio && s.minioConsole && s.minioBucket) then [ServiceCall("s3." + patp, "minio")] else [])
  }

  /** `'.'.join(parts)`, which is empty for no parts. */
  function JoinAll(parts: seq<string>, sep: char): string
  {
    if |parts| == 0 then "" else Join(parts, sep)
  }

  /** `'.'.join(endpointUrl.split('.')[1:])`: the endpoint without its first label. */
  function PubUrl(endpointUrl: string): string
  {
    JoinAll(Split(endpointUrl, '.')[1..], '.')
  }

  /** api/urbit.py:767: the first label of the endpoint is dropped, the rest kept verbatim. */
  lemma PubUrlDropsFirstLabel(first: string, rest: string)
    requires '.' !in first
    ensures PubUrl(first + "." + rest) == rest
  {
    var parts := Split(rest, '.');
    SplitPrefix(first, "." + rest, '.');
    assert Split("." + rest, '.') == [""] + parts;
    assert first + "." + rest == first + ("." + rest);
    assert first + "" == first;
    assert Split(first + "." + rest, '.')[1..] == parts;
    JoinSplit(rest, '.');
  }

  /** An endpoint without any `.` leaves nothing. */
  lemma PubUrlOfSingleLabel(endpointUrl: string)
    requires '.' !in endpointUrl
    ensures PubUrl(endpointUrl) == ""
  {
    SplitPrefix(endpointUrl, "", '.');
    assert endpointUrl + "" == endpointUrl;
  }

  function WebUrl(patp: string, pub: string): string { patp + "." + pub }
  function AmesUrl(patp: string, pub: string): string { "ames." + patp + "." + pub }
  function BucketUrl(patp: string, pub: string): string { "bucket.s3." + patp + "." + pub }
  function ConsoleUrl(patp: string, pub: string): string { "console.s3." + patp + "." + pub }

  /** What the poll has recorded so far: the five values of api/urbit.py:762-766. */
  datatype Found = Found(svcUrl: Option<string>, http: Option<int>, ames: Option<int>, s3: Option<int>, console: Option<int>)

  predicate Complete(f: Found)
  {
    f.svcUrl.Some? && f.http.Some? && f.ames.Some? && f.s3.Some? && f.console.Some?
  }

  /** The result of the poll; Stalled when the answers ran out first. */
  datatype PollResult =
    | Ready(svcUrl: string, http: int, ames: int, s3: int, console: int)
    | Stalled

  /** The `n`-th back-off in seconds: `tries * 2`, with `tries` stopping at 16. */
  function Backoff(n: nat): int
  {
    2 * (if n + 1 <= 16 then n + 1 else 16)
  }

  /** Every subdomain entry the relay offered: the data at the start and each new answer. */
  function Offered(initial: seq<Subdomain>, rounds: seq<Option<seq<Subdomain>>>): seq<Subdomain>
    decreases |rounds|
  {
    if |rounds| == 0 then initial
    else
      var last := rounds[|rounds| - 1];
      Offered(initial, rounds[..|rounds| - 1]) + (if last.Some? then last.value else [])
  }

  lemma {:induction false} OfferedGrows(initial: seq<Subdomain>, rounds: seq<Option<seq<Subdomain>>>, n: nat)
    requires n <= |rounds|
    ensures forall ep :: ep in Offered(initial, rounds[..n]) ==> ep in Offered(initial, rounds)
    decreases |rounds| - n
  {
    if n < |rounds| {
      OfferedGrows(initial, rounds, n + 1);
      assert rounds[..n + 1][..n] == rounds[..n];
    } else {
      assert rounds[..n] == rounds;
    }
  }

  /** An entry the poll may read a value from: reported `ok` under exactly this URL. */
  predicate OkAt(ep: Subdomain, url: string)
  {
    ep.status == "ok" && ep.url == url
  }

  /**
   * Each recorded value was read from an offered `ok` entry whose URL is
   * exactly the one expected for it.
   */
  ghost predicate Provenance(f: Found, offered: seq<Subdomain>, patp: string, pub: string)
  {
    (f.svcUrl.Some? ==> f.svcUrl.value == WebUrl(patp, pub))
    && (f.http.Some? ==> exists ep :: ep in offered && OkAt(ep, WebUrl(patp, pub)) && ep.port == f.http)
    && (f.ames.Some? ==> exists ep :: ep in offered && OkAt(ep, AmesUrl(patp, pub)) && ep.port == f.ames)
    && (f.s3.Some? ==> exists ep :: ep in offered && OkAt(ep, BucketUrl(patp, pub)) && ep.port == f.s3)
    && (f.console.Some? ==> exists ep :: ep in offered && OkAt(ep, ConsoleUrl(patp, pub)) && ep.port == f.console)
  }

  lemma ProvenanceWidens(f: Found, a: seq<Subdomain>, b: seq<Subdomain>, patp: string, pub: string)
    requires Provenance(f, a, patp, pub)
    requires forall ep :: ep in a ==> ep in b
    ensures Provenance(f, b, patp, pub)
  {
  }

  /**
   * An `ok` entry read by the poll (api/urbit.py:772-787): its URL decides
   * which value it gives; the site URL also gives the service URL.
   */
  function Note(f: Found, ep: Subdomain, patp: string, pub: string): (g: Found)
    ensures ep.url !in {WebUrl(patp, pub), AmesUrl(patp, pub), BucketUrl(patp, pub), ConsoleUrl(patp, pub)} ==> g == f
  {
    if WebUrl(patp, pub) == ep.url then f.(svcUrl := Some(ep.url), http := ep.port)
    else if AmesUrl(patp, pub) == ep.url then f.(ames := ep.port)
    else if BucketUrl(patp, pub) == ep.url then f.(s3 := ep.port)
    else if ConsoleUrl(patp, pub) == ep.url then f.(console := ep.port)
    else f
  }

  /** Reading an offered `ok` entry keeps every recorded value traceable to the relay. */
  lemma NoteKeepsProvenance(f: Found, ep: Subdomain, offered: seq<Subdomain>, patp: string, pub: string)
    requires Provenance(f, offered, patp, pub)
    requires ep in offered && ep.status == "ok"
    ensures Provenance(Note(f, ep, patp, pub), offered, patp, pub)
  {
  }

  /**
   * The entries of one round read in order (api/urbit.py:777-794): each
   * `ok` entry is noted, and the first entry that is not `ok` ends the
   * round. The flag says whether the round ended that way, and so slept.
   */
  function ReadEntries(f: Found, data: seq<Subdomain>, patp: string, pub: string): (Found, bool)
    decreases |data|
  {
    if |data| == 0 then (f, false)
    else
      var (g, stopped) := ReadEntries(f, data[..|data| - 1], patp, pub);
      var ep := data[|data| - 1];
      if stopped then (g, true)
      else if ep.status == "ok" then (Note(g, ep, patp, pub), false)
      else (g, true)
  }

  /** Once a round has stopped, the entries after the stop are never read. */
  lemma {:induction false} ReadStopped(f: Found, data: seq<Subdomain>, k: nat, patp: string, pub: string)
    requires k <= |data| && ReadEntries(f, data[..k], patp, pub).1
    ensures ReadEntries(f, data, patp, pub) == ReadEntries(f, data[..k], patp, pub)
    decreases |data|
  {
    if k == |data| {
      assert data[..k] == data;
    } else {
      var init := data[..|data| - 1];
      assert init[..k] == data[..k];
      ReadStopped(f, init, k, patp, pub);
    }
  }

  /** A round sleeps exactly when some entry of it is not `ok`. */
  lemma {:induction false} ReadSleepsOnNotOk(f: Found, data: seq<Subdomain>, patp: string, pub: string)
    ensures ReadEntries(f, data, patp, pub).1 <==> exists k :: 0 <= k < |data| && data[k].status != "ok"
    decreases |data|
  {
    if |data| > 0 {
      var init := data[..|data| - 1];
      ReadSleepsOnNotOk(f, init, patp, pub);
      if exists k :: 0 <= k < |init| && init[k].status != "ok" {
        var k :| 0 <= k < |init| && init[k].status != "ok";
        assert data[k] == init[k];
      }
      if exists k :: 0 <= k < |data| && data[k].status != "ok" {
        var k :| 0 <= k < |data| && data[k].status != "ok";
        if k < |init| {
          assert init[k] == data[k];
        }
      }
    }
  }

  /** The port of the last entry under `url`, or `dflt` when there is none. */
  function LastPort(data: seq<Subdomain>, url: string, dflt: Option<int>): Option<int>
    decreases |data|
  {
    if |data| == 0 then dflt
    else if data[|data| - 1].url == url then data[|data| - 1].port
    else LastPort(data[..|data| - 1], url, dflt)
  }

  /** Some entry of `data` is under `url`. */
  predicate Listed(data: seq<Subdomain>, url: string)
  {
    exists k :: 0 <= k < |data| && data[k].url == url
  }

  /**
   * A round whose entries are all `ok` reads every one of them, and the
   * last entry under each expected URL gives that value (api/urbit.py:779-787).
   */
  lemma {:induction false} ReadAllOk(f: Found, data: seq<Subdomain>, patp: string, pub: string)
    requires forall k :: 0 <= k < |data| ==> data[k].status == "ok"
    ensures ReadEntries(f, data, patp, pub) == (Found(
      if Listed(data, WebUrl(patp, pub)) then Some(WebUrl(patp, pub)) else f.svcUrl,
      LastPort(data, WebUrl(patp, pub), f.http),
      LastPort(data, AmesUrl(patp, pub), f.ames),
      LastPort(data, BucketUrl(patp, pub), f.s3),
      LastPort(data, ConsoleUrl(patp, pub), f.console)), false)
    decreases |data|
  {
    if |data| > 0 {
      var init := data[..|data| - 1];
      var ep := data[|data| - 1];
      assert forall k :: 0 <= k < |init| ==> init[k] == data[k];
      ReadAllOk(f, init, patp, pub);
      assert Listed(data, WebUrl(patp, pub)) <==> Listed(init, WebUrl(patp, pub)) || ep.url == WebUrl(patp, pub) by {
        if Listed(data, WebUrl(patp, pub)) && ep.url != WebUrl(patp, pub) {
          var k :| 0 <= k < |data| && data[k].url == WebUrl(patp, pub);
          assert k < |init| && init[k] == data[k];
        }
        if Listed(init, WebUrl(patp, pub)) {
          var k :| 0 <= k < |init| && init[k].url == WebUrl(patp, pub);
          assert data[k] == init[k];
        }
      }
      UrlsDiffer(patp, pub);
    }
  }

  /** The four expected URLs differ: their lengths do. */
  lemma UrlsDiffer(patp: string, pub: string)
    ensures WebUrl(patp, pub) != AmesUrl(patp, pub) && WebUrl(patp, pub) != BucketUrl(patp, pub)
    ensures WebUrl(patp, pub) != ConsoleUrl(patp, pub) && AmesUrl(patp, pub) != BucketUrl(patp, pub)
    ensures AmesUrl(patp, pub) != ConsoleUrl(patp, pub) && BucketUrl(patp, pub) != ConsoleUrl(patp, pub)
  {
    assert |WebUrl(patp, pub)| == |patp| + 1 + |pub|;
    assert |AmesUrl(patp, pub)| == |patp| + 6 + |pub|;
    assert |BucketUrl(patp, pub)| == |patp| + 11 + |pub|;
    assert |ConsoleUrl(patp, pub)| == |patp| + 12 + |pub|;
  }

  /**
   * One round of the poll (api/urbit.py:777-794): read the entries in
   * order, recording the values whose URL matches, and stop at the first
   * entry that is not `ok`, appending the current back-off to the sleeps.
   */
  method ReadRound(patp: string, pub: string, data: seq<Subdomain>, found0: Found, tries0: int, sleeps0: seq<int>,
                   ghost offered: seq<Subdomain>)
    returns (found: Found, tries: int, sleeps: seq<int>)
    requires tries0 == (if |sleeps0| + 1 <= 16 then |sleeps0| + 1 else 16)
    requires forall k :: 0 <= k < |sleeps0| ==> sleeps0[k] == Backoff(k)
    requires forall ep :: ep in data ==> ep in offered
    requires Provenance(found0, offered, patp, pub)
    ensures found == ReadEntries(found0, data, patp, pub).0
    ensures sleeps == sleeps0 + (if ReadEntries(found0, data, patp, pub).1 then [Backoff(|sleeps0|)] else [])
    ensures tries == (if |sleeps| + 1 <= 16 then |sleeps| + 1 else 16)
    ensures forall k :: 0 <= k < |sleeps| ==> sleeps[k] == Backoff(k)
    ensures Provenance(found, offered, patp, pub)
  {
    found, tries, sleeps := found0, tries0, sleeps0;
    var j := 0;
    var broke := false;
    while j < |data| && !broke
      invariant 0 <= j <= |data|
      invariant (found, broke) == ReadEntries(found0, data[..j], patp, pub)
      invariant sleeps == sleeps0 + (if broke then [Backoff(|sleeps0|)] else [])
      invariant tries == (if |sleeps| + 1 <= 16 then |sleeps| + 1 else 16)
      invariant Provenance(found, offered, patp, pub)
    {
      var ep := data[j];
      assert data[..j + 1][..j] == data[..j] && data[..j + 1][j] == ep;
      if ep.status == "ok" {
        NoteKeepsProvenance(found, ep, offered, patp, pub);
        found := Note(found, ep, patp, pub);
      } else {
        sleeps := sleeps + [tries * 2];
        if tries <= 15 {
          tries := tries + 1;
        }
        broke := true;
      }
      j := j + 1;
    }
    if j < |data| {
      ReadStopped(found0, data, j, patp, pub);
    } else {
      assert data[..j] == data;
    }
  }

  /** Where the poll stands: the values found, the data last read and the number of sleeps. */
  datatype PollState = PollState(found: Found, data: seq<Subdomain>, naps: nat)

  /**
   * The poll after the answers `rounds` (api/urbit.py:762-794): each round
   * replaces the data when `get_status` answers and reads it; once all five
   * values are known the loop has ended and later answers are not asked for.
   */
  function PollAfter(patp: string, pub: string, initial: seq<Subdomain>, rounds: seq<Option<seq<Subdomain>>>): PollState
    decreases |rounds|
  {
    if |rounds| == 0 then PollState(Found(None, None, None, None, None), initial, 0)
    else
      var s := PollAfter(patp, pub, initial, rounds[..|rounds| - 1]);
      var last := rounds[|rounds| - 1];
      if Complete(s.found) then s
      else
        var data := if last.Some? then last.value else s.data;
        var (g, stopped) := ReadEntries(s.found, data, patp, pub);
        PollState(g, data, s.naps + (if stopped then 1 else 0))
  }

  /** What the poll answers after `rounds`: Ready with the five values once they are all known. */
  function PollOutcome(patp: string, pub: string, initial: seq<Subdomain>, rounds: seq<Option<seq<Subdomain>>>): PollResult
  {
    var f := PollAfter(patp, pub, initial, rounds).found;
    if Complete(f) then Ready(f.svcUrl.value, f.http.value, f.ames.value, f.s3.value, f.console.value) else Stalled
  }

  /** Once the values are all known, later answers change nothing. */
  lemma {:induction false} PollDone(patp: string, pub: string, initial: seq<Subdomain>,
                                    rounds: seq<Option<seq<Subdomain>>>, k: nat)
    requires k <= |rounds| && Complete(PollAfter(patp, pub, initial, rounds[..k]).found)
    ensures PollAfter(patp, pub, initial, rounds) == PollAfter(patp, pub, initial, rounds[..k])
    decreases |rounds|
  {
    if k == |rounds| {
      assert rounds[..k] == rounds;
    } else {
      var init := rounds[..|rounds| - 1];
      assert init[..k] == rounds[..k];
      PollDone(patp, pub, initial, init, k);
    }
  }

  /** A poll that is Ready stays Ready, with the same values, whatever the relay answers next. */
  lemma ReadyStays(patp: string, pub: string, initial: seq<Subdomain>, rounds: seq<Option<seq<Subdomain>>>, k: nat)
    requires k <= |rounds| && PollOutcome(patp, pub, initial, rounds[..k]).Ready?
    ensures PollOutcome(patp, pub, initial, rounds) == PollOutcome(patp, pub, initial, rounds[..k])
  {
    PollDone(patp, pub, initial, rounds, k);
  }

  /**
   * A round answering entries that are all `ok`, with a port each and one
   * under every expected URL, ends an unfinished poll: it is Ready with
   * the port of the last entry under each URL.
   */
  lemma FullRoundReady(patp: string, pub: string, initial: seq<Subdomain>, rounds: seq<Option<seq<Subdomain>>>,
                       d: seq<Subdomain>)
    requires !Complete(PollAfter(patp, pub, initial, rounds).found)
    requires forall k :: 0 <= k < |d| ==> d[k].status == "ok" && d[k].port.Some?
    requires Listed(d, WebUrl(patp, pub)) && Listed(d, AmesUrl(patp, pub))
    requires Listed(d, BucketUrl(patp, pub)) && Listed(d, ConsoleUrl(patp, pub))
    ensures var r := PollOutcome(patp, pub, initial, rounds + [Some(d)]);
      && r.Ready? && r.svcUrl == WebUrl(patp, pub)
      && Some(r.http) == LastPort(d, WebUrl(patp, pub), None) && Some(r.ames) == LastPort(d, AmesUrl(patp, pub), None)
      && Some(r.s3) == LastPort(d, BucketUrl(patp, pub), None) && Some(r.console) == LastPort(d, ConsoleUrl(patp, pub), None)
  {
    var all := rounds + [Some(d)];
    assert all[..|all| - 1] == rounds;
    var f := PollAfter(patp, pub, initial, rounds).found;
    ReadAllOk(f, d, patp, pub);
    LastPortListed(d, WebUrl(patp, pub), f.http);
    LastPortListed(d, AmesUrl(patp, pub), f.ames);
    LastPortListed(d, BucketUrl(patp, pub), f.s3);
    LastPortListed(d, ConsoleUrl(patp, pub), f.console);
  }

  /** Under a URL that is listed, the default does not matter and the port comes from an entry. */
  lemma {:induction false} LastPortListed(data: seq<Subdomain>, url: string, dflt: Option<int>)
    requires Listed(data, url)
    ensures LastPort(data, url, dflt) == LastPort(data, url, None)
    ensures exists k :: 0 <= k < |data| && data[k].url == url && data[k].port == LastPort(data, url, dflt)
    decreases |data|
  {
    var init := data[..|data| - 1];
    if data[|data| - 1].url != url {
      var k :| 0 <= k < |data| && data[k].url == url;
      assert k < |init| && init[k] == data[k];
      LastPortListed(init, url, dflt);
      var j :| 0 <= j < |init| && init[j].url == url && init[j].port == LastPort(init, url, dflt);
      assert data[j] == init[j];
    }
  }

  /**
   * The poll of api/urbit.py:762-796. `initial` is the relay data known
   * when the poll starts; `rounds[i]` is the answer of `get_status` in the
   * i-th round (None when it fails and the old data is kept). A round reads
   * the entries in order and stops at the first one that is not `ok`,
   * sleeping for the current back-off. The poll ends as soon as all five
   * values are known; the real loop has no bound, so running out of
   * answers first is reported as Stalled.
   */
  method PollAnchor(patp: string, pub: string, initial: seq<Subdomain>, rounds: seq<Option<seq<Subdomain>>>)
    returns (result: PollResult, sleeps: seq<int>)
    ensures result == PollOutcome(patp, pub, initial, rounds)
    ensures |sleeps| == PollAfter(patp, pub, initial, rounds).naps
    ensures forall k :: 0 <= k < |sleeps| ==> sleeps[k] == Backoff(k)
    ensures result.Ready? ==> result.svcUrl == WebUrl(patp, pub)
    ensures result.Ready? ==> Provenance(
      Found(Some(result.svcUrl), Some(result.http), Some(result.ames), Some(result.s3), Some(result.console)),
      Offered(initial, rounds), patp, pub)
  {
    var found := Found(None, None, None, None, None);
    var data := initial;
    var tries := 1;
    sleeps := [];
    var i := 0;
    assert rounds[..0] == [];
    while !Complete(found) && i < |rounds|
      invariant 0 <= i <= |rounds|
      invariant PollState(found, data, |sleeps|) == PollAfter(patp, pub, initial, rounds[..i])
      invariant tries == (if |sleeps| + 1 <= 16 then |sleeps| + 1 else 16)
      invariant forall k :: 0 <= k < |sleeps| ==> sleeps[k] == Backoff(k)
      invariant forall ep :: ep in data ==> ep in Offered(initial, rounds[..i])
      invariant Provenance(found, Offered(initial, rounds[..i]), patp, pub)
    {
      ghost var before := Offered(initial, rounds[..i]);
      ghost var after := Offered(initial, rounds[..i + 1]);
      assert rounds[..i + 1][..i] == rounds[..i];
      assert rounds[..i + 1][i] == rounds[i];
      assert forall ep :: ep in before ==> ep in after;
      if rounds[i].Some? {
        data := rounds[i].value;
      }
      ProvenanceWidens(found, before, after, patp, pub);
      found, tries, sleeps := ReadRound(patp, pub, data, found, tries, sleeps, after);
      i := i + 1;
    }
    if i < |rounds| {
      PollDone(patp, pub, initial, rounds, i);
    } else {
      assert rounds[..i] == rounds;
    }
    OfferedGrows(initial, rounds, i);
    ProvenanceWidens(found, Offered(initial, rounds[..i]), Offered(initial, rounds), patp, pub);
    if Complete(found) {
      result := Ready(found.svcUrl.value, found.http.value, found.ames.value, found.s3.value, found.console.value);
    } else {
      result := Stalled;
    }
  }

  /** api/urbit.py:789-793: the back-off grows by two seconds a round up to 32 seconds and stays there. */
  lemma BackoffSchedule(n: nat)
    ensures Backoff(n) <= 32
    ensures n < 15 ==> Backoff(n + 1) == Backoff(n) + 2
    ensures n >= 15 ==> Backoff(n) == 32
  {
  }
}
