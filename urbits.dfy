/**
 * The pier registry of api/urbit.py (`class Urbit`): the records in
 * `_urbits`, the ordered pier list `config['piers']`, the pier files under
 * `settings/pier/`, the containers the docker daemon holds, and the upload
 * status of piers being booted from an archive.
 *
 * Docker, MinIO, WireGuard/anchor, DNS and lens (`exec`) calls are not
 * modelled; each call site takes the answer such a call gives as a
 * parameter. The effect of a successful docker call on the containers is
 * part of the model: `delete` and `remove_container` drop the container,
 * `create` adds a stopped one, a successful `stop` stops it, and a start
 * that answers "succeeded" leaves it running.
 */
module Urbits {
  import opened Wrappers
  import opened Strings
  import opened PierData
  import opened MeldClock
  import Patp
  import Anchor

  /** A pier file that `load_config` can read: present and valid JSON. */
  predicate Loadable(files: map<string, Option<PierDocument>>, patp: string)
  {
    patp in files && files[patp].Some?
  }

  /**
   * What `start` returns (api/urbit.py:81-88): "failed" when the file cannot
   * be loaded, None when MinIO does not start, otherwise the status the
   * docker start reports.
   */
  function StartOutcome(loaded: bool, minioOk: bool, dockerStatus: string): Outcome
  {
    if !loaded then Text("failed") else if !minioOk then Null else Text(dockerStatus)
  }

  /** The outcomes of starting each pier of `patps` in turn. */
  function StartOutcomes(files: map<string, Option<PierDocument>>, patps: seq<string>,
                         minioOk: seq<bool>, dockerStatus: seq<string>): (outs: seq<Outcome>)
    requires |minioOk| == |patps| == |dockerStatus|
    ensures |outs| == |patps|
  {
    seq(|patps|, i requires 0 <= i < |patps| => StartOutcome(Loadable(files, patps[i]), minioOk[i], dockerStatus[i]))
  }

  /** `res[key]` of `start_all`: the piers whose start gave the status `key`, in order. */
  function Bucket(ps: seq<string>, outs: seq<Outcome>, key: string): seq<string>
    requires |ps| == |outs|
    decreases |ps|
  {
    if |ps| == 0 then []
    else Bucket(ps[..|ps| - 1], outs[..|outs| - 1], key) + (if outs[|outs| - 1] == Text(key) then [ps[|ps| - 1]] else [])
  }

  /** The bucket of the first `i + 1` piers extends that of the first `i`. */
  lemma BucketStep(ps: seq<string>, outs: seq<Outcome>, i: nat, key: string)
    requires i < |ps| == |outs|
    ensures Bucket(ps[..i + 1], outs[..i + 1], key)
         == Bucket(ps[..i], outs[..i], key) + (if outs[i] == Text(key) then [ps[i]] else [])
  {
    assert ps[..i + 1][..i] == ps[..i] && outs[..i + 1][..i] == outs[..i];
  }

  /** A bucket holds exactly the piers whose start reported its key. */
  lemma {:induction false} BucketMembers(ps: seq<string>, outs: seq<Outcome>, key: string, p: string)
    requires |ps| == |outs|
    ensures p in Bucket(ps, outs, key) <==> exists i :: 0 <= i < |ps| && ps[i] == p && outs[i] == Text(key)
    decreases |ps|
  {
    if |ps| > 0 {
      var n := |ps| - 1;
      BucketMembers(ps[..n], outs[..n], key, p);
      if exists i :: 0 <= i < |ps| && ps[i] == p && outs[i] == Text(key) {
        var i :| 0 <= i < |ps| && ps[i] == p && outs[i] == Text(key);
        if i < n {
          assert ps[..n][i] == p && outs[..n][i] == Text(key);
        }
      }
      if exists i :: 0 <= i < n && ps[..n][i] == p && outs[..n][i] == Text(key) {
        var i :| 0 <= i < n && ps[..n][i] == p && outs[..n][i] == Text(key);
        assert ps[i] == p && outs[i] == Text(key);
      }
    }
  }

  /** `network` after `toggle_network` (api/urbit.py:522-525). */
  function NextNetwork(current: string, wgRegistered: bool, wgRunning: bool): (n: string)
    ensures n == "wireguard" || n == "none"
  {
    if current == "none" && wgRegistered && wgRunning then "wireguard" else "none"
  }

  /**
   * With WireGuard registered and running, toggling the network twice
   * restores either mode; otherwise every pier ends up on `none`.
   */
  lemma NetworkToggleTwice(n: string, wgRegistered: bool, wgRunning: bool)
    ensures (n == "none" || n == "wireguard") && wgRegistered && wgRunning ==>
      NextNetwork(NextNetwork(n, wgRegistered, wgRunning), wgRegistered, wgRunning) == n
    ensures !(wgRegistered && wgRunning) ==> NextNetwork(n, wgRegistered, wgRunning) == "none"
    ensures n == "wireguard" ==> NextNetwork(n, wgRegistered, wgRunning) == "none"
  {
  }

  /** `boot_status` after `toggle_autostart` (api/urbit.py:488-495). */
  function NextAutostart(status: string, running: bool): (s: string)
    ensures s == "boot" || s == "noboot" || s == "off"
    ensures s != "off" <==> status == "off"
    ensures s == "boot" <==> status == "off" && running
  {
    if status == "off" then (if running then "boot" else "noboot") else "off"
  }

  /**
   * A record after `send_meld` has succeeded at `now`, and whether the
   * rest of the method ran: `meld_last` is set first; `meld_next` only when
   * `meld_time` parses to a valid clock time (api/urbit.py:678-689).
   */
  function Melded(c: PierConfig, now: int): (r: (PierConfig, bool))
    ensures r.0.meldLast == now
    ensures r.1 <==> ParseMeldTime(c.meldTime).Some? && IsClock(ParseMeldTime(c.meldTime).value.0, ParseMeldTime(c.meldTime).value.1)
    ensures !r.1 ==> r.0 == c.(meldLast := now)
    ensures r.0.(meldNext := c.meldNext) == c.(meldLast := now)
  {
    match ParseMeldTime(c.meldTime)
    case Some((h, m)) =>
      if IsClock(h, m) then (c.(meldLast := now, meldNext := NextMeld(now, h, m, c.meldFrequency)), true)
      else (c.(meldLast := now), false)
    case None => (c.(meldLast := now), false)
  }

  /**
   * After a successful meld the next one is due at the scheduled time of
   * day, `meld_frequency` days after today; with a frequency of a day or
   * more the pier is no longer due.
   */
  lemma MeldedSchedule(c: PierConfig, now: int)
    requires Melded(c, now).1
    ensures var (h, m) := ParseMeldTime(c.meldTime).value;
      && Melded(c, now).0.meldNext % SecondsPerDay == h * 3600 + m * 60
      && Melded(c, now).0.meldNext / SecondsPerDay == now / SecondsPerDay + c.meldFrequency
      && (c.meldFrequency >= 1 ==> Melded(c, now).0.meldNext > now)
  {
    var (h, m) := ParseMeldTime(c.meldTime).value;
    assert Melded(c, now).0.meldNext == NextMeld(now, h, m, c.meldFrequency);
    NextMeldPlacement(now, h, m, c.meldFrequency);
    NextMeldAfterNow(now, h, m, c.meldFrequency);
  }

  /** A pier a meld sweep sends a meld to (api/urbit.py:625-628, api/groundseg.py:155-156). */
  predicate DueForMeld(c: PierConfig, now: int)
  {
    c.meldSchedule && c.meldNext <= now
  }

  /** The endpoint `set_minio` gives the ship: the custom S3 domain if set, else `s3.` and the anchor URL. */
  function MinioEndpoint(c: PierConfig): (e: string)
    ensures |c.customS3Web| > 0 ==> e == c.customS3Web
    ensures |c.customS3Web| == 0 ==> e == "s3." + c.wgUrl
  {
    if |c.customS3Web| > 0 then c.customS3Web else "s3." + c.wgUrl
  }

  /**
   * A custom S3 domain that was set is what the ship is pointed at; once it
   * is deleted the ship is pointed back at the anchor's own S3 URL.
   */
  lemma MinioEndpointFollowsAlias(c: PierConfig, alias: string)
    ensures alias != "" ==> MinioEndpoint(c.(customS3Web := alias)) == alias
    ensures MinioEndpoint(c.(customS3Web := "")) == "s3." + c.wgUrl
  {
  }

  /** One `{'name', 'running', 'url', 'remote'}` entry of `list_ships`. */
  datatype ShipEntry = ShipEntry(name: string, running: bool, url: string, remote: bool)

  function Entry(patp: string, running: bool, c: PierConfig, hostname: string): ShipEntry
  {
    ShipEntry(patp, running, DisplayUrl(c, hostname), c.network == "wireguard")
  }

  /**
   * `list_ships` (api/urbit.py:180-211): an entry for each listed pier that
   * has a container and a record, in list order; a pier without a record
   * raises KeyError, which is caught and skips it.
   */
  function Listed(ps: seq<string>, containers: map<string, bool>, urbits: map<string, PierConfig>, hostname: string): seq<ShipEntry>
    decreases |ps|
  {
    if |ps| == 0 then []
    else
      var p := ps[|ps| - 1];
      Listed(ps[..|ps| - 1], containers, urbits, hostname)
      + (if p in containers && p in urbits then [Entry(p, containers[p], urbits[p], hostname)] else [])
  }

  /**
   * Every entry belongs to a listed pier with a container and a record and
   * shows its URL and state; every such pier is listed.
   */
  lemma {:induction false} ListedExactly(ps: seq<string>, containers: map<string, bool>, urbits: map<string, PierConfig>, hostname: string)
    ensures |Listed(ps, containers, urbits, hostname)| <= |ps|
    ensures forall e :: e in Listed(ps, containers, urbits, hostname) ==>
      e.name in ps && e.name in containers && e.name in urbits
      && e == Entry(e.name, containers[e.name], urbits[e.name], hostname)
    ensures forall p :: p in ps && p in containers && p in urbits ==>
      Entry(p, containers[p], urbits[p], hostname) in Listed(ps, containers, urbits, hostname)
    decreases |ps|
  {
    if |ps| > 0 {
      var n := |ps| - 1;
      ListedExactly(ps[..n], containers, urbits, hostname);
      assert ps == ps[..n] + [ps[n]];
      forall p | p in ps && p in containers && p in urbits
        ensures Entry(p, containers[p], urbits[p], hostname) in Listed(ps, containers, urbits, hostname)
      {
        if p != ps[n] {
          assert p in ps[..n];
        }
      }
    }
  }

  /**
   * With no name listed twice, no two entries share a name, so with
   * `ListedExactly` each pier with a container and a record has exactly
   * one entry.
   */
  lemma {:induction false} ListedDistinct(ps: seq<string>, containers: map<string, bool>, urbits: map<string, PierConfig>, hostname: string)
    requires Distinct(ps)
    ensures var l := Listed(ps, containers, urbits, hostname);
      forall i, j :: 0 <= i < j < |l| ==> l[i].name != l[j].name
    decreases |ps|
  {
    if |ps| > 0 {
      var n := |ps| - 1;
      assert Distinct(ps[..n]) by {
        forall i, j | 0 <= i < j < n ensures ps[..n][i] != ps[..n][j] {
          assert ps[..n][i] == ps[i] && ps[..n][j] == ps[j];
        }
      }
      ListedDistinct(ps[..n], containers, urbits, hostname);
      ListedExactly(ps[..n], containers, urbits, hostname);
      var before := Listed(ps[..n], containers, urbits, hostname);
      var l := Listed(ps, containers, urbits, hostname);
      forall i, j | 0 <= i < j < |l| ensures l[i].name != l[j].name {
        assert l[i] == before[i];
        if j < |before| {
          assert l[j] == before[j];
        } else {
          assert l[j].name == ps[n];
          assert before[i] in before;
        }
      }
    }
  }

  /** The record `get_info` returns (api/urbit.py:368-392), with timestamps as integers. */
  datatype Info = Info(
    name: string, running: bool, wgReg: bool, wgRunning: bool, autostart: bool,
    meldOn: bool, timeNow: int, frequency: int, meldLast: int, meldNext: int,
    containerNames: seq<string>, meldHour: nat, meldMinute: nat, remote: bool,
    urbitUrl: string, minIOUrl: string, minIOReg: bool, hasBucket: bool,
    loomSize: int, showUrbWeb: string, urbWebAlias: string, s3WebAlias: string)

  /** `get_info`'s answers: the record, 400 without a container, or an uncaught exception. */
  datatype InfoReply = Details(info: Info) | NoContainer | InfoRaised

  /** The free ports rule: above `base` and every port in use, and the least such value. */
  predicate IsNextPort(ports: set<int>, base: int, r: int)
  {
    base < r && (forall x :: x in ports ==> x < r) && (r == base + 1 || r - 1 in ports)
  }

  function HttpPorts(m: map<string, PierConfig>): set<int>
  {
    set p | p in m :: m[p].httpPort
  }

  function AmesPorts(m: map<string, PierConfig>): set<int>
  {
    set p | p in m :: m[p].amesPort
  }

  /**
   * The rule fixes the port, so two allocations from the same registry
   * agree; it is one above the largest of `base` and the ports in use.
   */
  lemma NextPortUnique(ports: set<int>, base: int, r1: int, r2: int)
    requires IsNextPort(ports, base, r1) && IsNextPort(ports, base, r2)
    ensures r1 == r2
  {
  }

  /** api/urbit.py:414-423: with no pier the first ports are 8081 and 34344. */
  lemma FirstPorts(r1: int, r2: int)
    requires IsNextPort(HttpPorts(map[]), 8080, r1) && IsNextPort(AmesPorts(map[]), 34343, r2)
    ensures r1 == 8081 && r2 == 34344
  {
    assert HttpPorts(map[]) == {};
    assert AmesPorts(map[]) == {};
  }

  /**
   * After `add_urbit(p)` the pier is listed exactly once, last, and the
   * other names keep their order (api/urbit.py:713-714).
   */
  lemma AddedOnceAtEnd(ps: seq<string>, p: string)
    ensures var q := Without(ps, p) + [p];
      && q[|q| - 1] == p
      && multiset(q)[p] == 1
      && Without(q, p) == Without(ps, p)
      && (forall x :: x != p ==> multiset(q)[x] == multiset(ps)[x])
  {
    var w := Without(ps, p);
    var q := w + [p];
    assert p !in w;
    assert multiset(w)[p] == 0;
    assert multiset(q) == multiset(w) + multiset{p};
    WithoutAppend(w, [p], p);
    WithoutAbsent(w, p);
    assert Without([p], p) == [];
    assert w + [] == w;
  }

  /** The answer `getaddrinfo` gives for the anchor's name and for the alias in one attempt. */
  datatype DnsAnswer = DnsAnswer(anchorAddr: Option<string>, aliasAddr: Option<string>)

  /** The two names resolve, and to the same address. */
  predicate Agree(a: DnsAnswer)
  {
    a.anchorAddr.Some? && a.aliasAddr.Some? && a.anchorAddr.value != "" && a.anchorAddr.value == a.aliasAddr.value
  }

  /** The answer of attempt `k`; an attempt past the answers given finds no record. */
  function Lookup(lookups: seq<DnsAnswer>, k: nat): DnsAnswer
  {
    if k < |lookups| then lookups[k] else DnsAnswer(None, None)
  }

  /** The `data` argument of `custom_domain`. */
  datatype DomainRequest = DomainRequest(svcType: string, alias: string, operation: string, relink: bool)

  /**
   * The answers of the anchor during `register_urbit`: the data it held
   * before, the first `get_status` (None if it failed) and the poll's
   * answers.
   */
  datatype AnchorReplies = AnchorReplies(
    known: seq<Anchor.Subdomain>,
    first: Option<seq<Anchor.Subdomain>>,
    rounds: seq<Option<seq<Anchor.Subdomain>>>)

  /** The anchor data the poll starts from. */
  function PollStart(a: AnchorReplies): seq<Anchor.Subdomain>
  {
    if a.first.Some? then a.first.value else a.known
  }

  /** The answers of the external calls while a pier is created and booted. */
  datatype BootReplies = BootReplies(deleted: bool, created: bool, minioOk: bool, dockerStatus: string, anchor: AnchorReplies)

  /** How far `Launch` got: the container was not created, registration failed or never ended, or the start answered. */
  datatype LaunchStep = NotCreated | NotRegistered | RegistrationHangs | Launched(start: Outcome)

  /** `b` is `a` with at most the anchor URL and ports changed. */
  predicate AnchorOnly(a: PierConfig, b: PierConfig)
  {
    b == a.(wgUrl := b.wgUrl, wgHttpPort := b.wgHttpPort, wgAmesPort := b.wgAmesPort,
            wgS3Port := b.wgS3Port, wgConsolePort := b.wgConsolePort)
  }

  /** The failure message of `create_existing` is never the success status. */
  lemma FailedToBootDiffers(patp: string)
    ensures "Failed to boot " + patp != "succeeded"
  {
    assert |"Failed to boot " + patp| > |"succeeded"|;
  }

  /** A key written twice holds the second value. */
  lemma Overwritten<V>(m: map<string, V>, k: string, a: V, b: V)
    ensures m[k := a][k := b] == m[k := b]
  {
  }

  /** Writing a key's own value back changes nothing. */
  lemma Rewritten<V>(m: map<string, V>, k: string)
    requires k in m
    ensures m[k := m[k]] == m
  {
  }

  /** Removing a key forgets what was last written to it. */
  lemma SetThenRemoved<V>(m: map<string, V>, k: string, b: V)
    ensures m[k := b] - {k} == m - {k}
  {
  }

  /** A key removed and then written holds the written value. */
  lemma RemovedThenSet<V>(m: map<string, V>, k: string, b: V)
    ensures (m - {k})[k := b] == m[k := b]
  {
  }

  /** The record with the anchor URL and ports a Ready poll gave stored in it (api/urbit.py:800-811). */
  function AnchorStored(c: PierConfig, p: Anchor.PollResult): PierConfig
  {
    if p.Ready? then c.(wgUrl := p.svcUrl, wgHttpPort := Some(p.http), wgAmesPort := Some(p.ames),
                        wgS3Port := Some(p.s3), wgConsolePort := Some(p.console))
    else c
  }

  /** The poll `register_urbit` runs for `patp`. */
  function RegistrationPoll(endpointUrl: string, patp: string, replies: AnchorReplies): Anchor.PollResult
  {
    Anchor.PollOutcome(patp, Anchor.PubUrl(endpointUrl), PollStart(replies), replies.rounds)
  }

  /**
   * What `register_urbit` answers (api/urbit.py:723-798): True at once
   * without WireGuard; it raises when the first scan meets a URL of fewer
   * than three labels; it never answers while the poll is unfinished;
   * otherwise it answers what `set_wireguard_network` does, True exactly
   * when the pier has a record (`known`).
   */
  function RegisterStep(wgRegistered: bool, endpointUrl: string, patp: string, replies: AnchorReplies, known: bool): Step
  {
    if !wgRegistered then Returned(true)
    else if replies.first.Some? && Anchor.HasShortUrl(replies.first.value) then Raises
    else if RegistrationPoll(endpointUrl, patp, replies).Stalled? then Hangs
    else Returned(known)
  }

  /**
   * How far `create` and `create_existing` get once the record is saved
   * (api/urbit.py:231-241, 340-347): the container is created, the pier
   * registered with the anchor, then started on its saved file.
   */
  function LaunchOutcome(patp: string, replies: BootReplies, wgRegistered: bool, endpointUrl: string): LaunchStep
  {
    if !replies.created then NotCreated
    else
      var reg := RegisterStep(wgRegistered, endpointUrl, patp, replies.anchor, true);
      if reg == Hangs then RegistrationHangs
      else if reg != Returned(true) then NotRegistered
      else Launched(StartOutcome(true, replies.minioOk, replies.dockerStatus))
  }

  /**
   * The launch succeeds exactly when the container is created, registration
   * is not needed or its scan passes and its poll finishes, and MinIO and
   * the docker start succeed; it hangs exactly when the poll never finishes.
   */
  lemma LaunchAnswers(patp: string, replies: BootReplies, wgRegistered: bool, endpointUrl: string)
    ensures var l := LaunchOutcome(patp, replies, wgRegistered, endpointUrl);
      && (l == Launched(Text("succeeded")) <==>
            && replies.created && replies.minioOk && replies.dockerStatus == "succeeded"
            && (!wgRegistered || (!(replies.anchor.first.Some? && Anchor.HasShortUrl(replies.anchor.first.value))
                                  && RegistrationPoll(endpointUrl, patp, replies.anchor).Ready?)))
      && (l == RegistrationHangs <==>
            && replies.created && wgRegistered
            && !(replies.anchor.first.Some? && Anchor.HasShortUrl(replies.anchor.first.value))
            && RegistrationPoll(endpointUrl, patp, replies.anchor).Stalled?)
      && (l.Launched? ==> l.start == StartOutcome(true, replies.minioOk, replies.dockerStatus))
  {
  }

  /**
   * What `create_existing` answers once its record is saved (api/urbit.py:340-352):
   * the start's answer, no answer while registration hangs, or the failure message.
   */
  function ExistingAnswer(patp: string, l: LaunchStep): Outcome
  {
    match l
    case Launched(start) => start
    case RegistrationHangs => Stalled
    case _ => Text("Failed to boot " + patp)
  }

  /** What `boot_existing` answers for what `create_existing` answered (api/urbit.py:257-262). */
  function UploadAnswer(created: Outcome): Outcome
  {
    if created == Text("succeeded") then Code(200) else created
  }

  /**
   * Booting an uploaded pier answers 200 exactly when the launch succeeds and
   * never answers exactly when registration never does; otherwise it answers
   * the start's answer or the failure message.
   */
  lemma ExistingAnswers(patp: string, replies: BootReplies, wgRegistered: bool, endpointUrl: string)
    ensures var l := LaunchOutcome(patp, replies, wgRegistered, endpointUrl);
      var a := ExistingAnswer(patp, l);
      && (a == Text("succeeded") <==> l == Launched(Text("succeeded")))
      && (UploadAnswer(a) == Code(200) <==> l == Launched(Text("succeeded")))
      && (a == Stalled <==> l == RegistrationHangs)
      && (l.Launched? ==> a == l.start)
      && (l == NotCreated || l == NotRegistered ==> a == Text("Failed to boot " + patp))
  {
    FailedToBootDiffers(patp);
  }

  /** The pier's record after the launch: the anchor values stored when registration stored them. */
  function Anchored(c: PierConfig, patp: string, replies: BootReplies, wgRegistered: bool, endpointUrl: string): PierConfig
  {
    if replies.created && wgRegistered && RegisterStep(wgRegistered, endpointUrl, patp, replies.anchor, true) == Returned(true)
    then AnchorStored(c, RegistrationPoll(endpointUrl, patp, replies.anchor))
    else c
  }

  /** The records after `start` has reloaded each of `ps` in turn. */
  function Reloaded(m: map<string, PierConfig>, files: map<string, Option<PierDocument>>, ps: seq<string>)
    : map<string, PierConfig>
  {
    if ps == [] then m
    else
      var before := Reloaded(m, files, ps[..|ps| - 1]);
      var p := ps[|ps| - 1];
      if Loadable(files, p) then before[p := Merge(files[p].value)] else before
  }

  /** Reloading the first `i + 1` piers reloads the first `i`, then pier `i`. */
  lemma ReloadedStep(m: map<string, PierConfig>, files: map<string, Option<PierDocument>>, ps: seq<string>, i: nat)
    requires i < |ps|
    ensures Reloaded(m, files, ps[..i + 1])
         == (if Loadable(files, ps[i]) then Reloaded(m, files, ps[..i])[ps[i] := Merge(files[ps[i]].value)]
             else Reloaded(m, files, ps[..i]))
  {
    assert ps[..i + 1][..i] == ps[..i];
  }

  /**
   * api/urbit.py:161-177: after `start_all` exactly the loadable listed
   * piers hold the record their file gives; every other record is as it was.
   */
  lemma {:induction false} ReloadedExactly(m: map<string, PierConfig>, files: map<string, Option<PierDocument>>,
                                           ps: seq<string>, p: string)
    ensures p in Reloaded(m, files, ps) <==> p in m || (p in ps && Loadable(files, p))
    ensures p in Reloaded(m, files, ps) ==>
      Reloaded(m, files, ps)[p] == if p in ps && Loadable(files, p) then Merge(files[p].value) else m[p]
  {
    if ps != [] {
      var init := ps[..|ps| - 1];
      ReloadedExactly(m, files, init, p);
      assert ps == init + [ps[|ps| - 1]];
      assert p in ps <==> p in init || p == ps[|ps| - 1];
    }
  }

  /** The containers after each of `ps` was started and left running. */
  function Marked(cs: map<string, bool>, ps: seq<string>): map<string, bool>
  {
    if ps == [] then cs else Marked(cs, ps[..|ps| - 1])[ps[|ps| - 1] := true]
  }

  lemma MarkedAppend(cs: map<string, bool>, ps: seq<string>, p: string)
    ensures Marked(cs, ps + [p]) == Marked(cs, ps)[p := true]
  {
    assert (ps + [p])[..|ps|] == ps;
  }

  /**
   * The containers `start_all` leaves running are the ones it found
   * running and the ones it sorted as `succeeded`; none is removed.
   */
  lemma {:induction false} MarkedExactly(cs: map<string, bool>, ps: seq<string>, n: string)
    ensures n in Marked(cs, ps) <==> n in cs || n in ps
    ensures n in Marked(cs, ps) ==> Marked(cs, ps)[n] == (n in ps || cs[n])
  {
    if ps != [] {
      var init := ps[..|ps| - 1];
      MarkedExactly(cs, init, n);
      assert ps == init + [ps[|ps| - 1]];
      assert n in ps <==> n in init || n == ps[|ps| - 1];
    }
  }

  /**
   * The containers after a rebuild: a missing container stays missing; the
   * removal and the new creation each may fail; a container that was
   * running is started again and runs if the start succeeds.
   */
  function Rebuilt(cs: map<string, bool>, p: string, removeOk: bool, createOk: bool, minioOk: bool, dockerStatus: string)
    : (r: map<string, bool>)
    ensures forall q :: q != p ==> (q in r <==> q in cs) && (q in r ==> r[q] == cs[q])
    ensures p !in cs ==> r == cs
    ensures p in cs && !cs[p] ==> (p in r <==> !removeOk || createOk) && (p in r ==> !r[p])
    ensures p in cs && cs[p] ==> (p in r <==> !removeOk || createOk || (minioOk && dockerStatus == "succeeded"))
  {
    if p !in cs then cs
    else
      var after := if !removeOk then cs else if createOk then cs[p := false] else cs - {p};
      if cs[p] && minioOk && dockerStatus == "succeeded" then after[p := true] else after
  }

  /** What a step that returns a bool did: returned, raised, or never returned. */
  datatype Step = Returned(ok: bool) | Raises | Hangs

  /** The archive kinds `extract_pier` recognises by the end of the file name. */
  datatype ArchiveKind = Zip | Tarball | Unrecognised

  function KindOf(filename: string): ArchiveKind
  {
    if EndsWith(filename, "zip") then Zip
    else if EndsWith(filename, "tar.gz") || EndsWith(filename, "tgz") || EndsWith(filename, "tar") then Tarball
    else Unrecognised
  }

  function Sum(sizes: seq<nat>): nat
  {
    if |sizes| == 0 then 0 else Sum(sizes[..|sizes| - 1]) + sizes[|sizes| - 1]
  }

  /** The pier a file name belongs to: its text before the first `.`. */
  function PierOf(filename: string): string
  {
    Split(filename, '.')[0]
  }

  class Urbit {
    /** `_urbits`: the loaded records */
    var urbits: map<string, PierConfig>
    /** `config['piers']` */
    var piers: seq<string>
    /** `settings/pier/<patp>.json`; None for a file that is not valid JSON */
    var files: map<string, Option<PierDocument>>
    /** the docker containers by name, and whether each is running */
    var containers: map<string, bool>
    /** `config_object.upload_status` */
    var uploadStatus: map<string, UploadStatus>
    /** `config['wgRegistered']` */
    var wgRegistered: bool
    /** `config['endpointUrl']` */
    var endpointUrl: string
    /**
     * The ship-name check the registry applies before creating a pier:
     * `Utils.check_patp` (api/utils.py:27-65), fixed when the registry is
     * made.
     */
    const validName: string -> bool

    /**
     * The registry as the object starts: no record loaded yet. The
     * constructor of the source goes on to call `start_all` on the pier
     * list, which is `StartAll` here.
     */
    constructor(piers: seq<string>, files: map<string, Option<PierDocument>>, containers: map<string, bool>,
                wgRegistered: bool, endpointUrl: string, validName: string -> bool)
      requires forall p :: validName(p) == Patp.CheckPatp(Patp.PyStr(p))
      ensures this.piers == piers && this.files == files && this.containers == containers
      ensures this.wgRegistered == wgRegistered && this.endpointUrl == endpointUrl
      ensures urbits == map[] && uploadStatus == map[]
      ensures forall p :: this.validName(p) == Patp.CheckPatp(Patp.PyStr(p))
    {
      this.validName := validName;
      this.urbits := map[];
      this.piers := piers;
      this.files := files;
      this.containers := containers;
      this.uploadStatus := map[];
      this.wgRegistered := wgRegistered;
      this.endpointUrl := endpointUrl;
    }

    /** The pier's file holds exactly its current record. */
    predicate Saved(patp: string)
      reads this
    {
      patp in urbits && patp in files && files[patp] == Some(Document(urbits[patp]))
    }

    /** The files are `before` with only the pier's own file rewritten from its record. */
    predicate SavedOver(before: map<string, Option<PierDocument>>, patp: string)
      reads this
    {
      patp in urbits && files == before[patp := Some(Document(urbits[patp]))]
    }

    /**
     * `save_config` (api/urbit.py:1058-1066): the file is opened for writing
     * before the record is looked up, so for a pier without a record it is
     * left empty and the call answers False.
     */
    method SaveConfig(patp: string) returns (ok: bool)
      modifies this`files
      ensures ok <==> patp in urbits
      ensures files == old(files)[patp := if ok then Some(Document(urbits[patp])) else None]
      ensures ok ==> Saved(patp)
    {
      if patp in urbits {
        files := files[patp := Some(Document(urbits[patp]))];
        ok := true;
      } else {
        files := files[patp := None];
        ok := false;
      }
    }

    /** `load_config` (api/urbit.py:1047-1056): stored keys over the defaults. */
    method LoadConfig(patp: string) returns (ok: bool)
      modifies this`urbits
      ensures ok <==> Loadable(files, patp)
      ensures urbits == if ok then old(urbits)[patp := Merge(files[patp].value)] else old(urbits)
      ensures old(Saved(patp)) ==> ok && urbits == old(urbits)
    {
      if Loadable(files, patp) {
        if Saved(patp) {
          SaveLoadRoundTrip(urbits[patp]);
        }
        urbits := urbits[patp := Merge(files[patp].value)];
        ok := true;
      } else {
        ok := false;
      }
    }

    /** `start` (api/urbit.py:81-88): reload the record, start MinIO, then the pier. */
    method Start(patp: string, minioOk: bool, dockerStatus: string) returns (r: Outcome)
      modifies this`urbits, this`containers
      ensures r == StartOutcome(Loadable(files, patp), minioOk, dockerStatus)
      ensures urbits == if Loadable(files, patp) then old(urbits)[patp := Merge(files[patp].value)] else old(urbits)
      ensures containers == if r == Text("succeeded") then old(containers)[patp := true] else old(containers)
      ensures old(Saved(patp)) ==> urbits == old(urbits) && r == StartOutcome(true, minioOk, dockerStatus)
    {
      var loaded := LoadConfig(patp);
      if !loaded {
        return Text("failed");
      }
      if !minioOk {
        return Null;
      }
      r := Text(dockerStatus);
      if dockerStatus == "succeeded" {
        containers := containers[patp := true];
      }
    }

    /**
     * `start_all` (api/urbit.py:158-177): start each listed pier and sort
     * it by the status returned; a status other than the four keys (None
     * among them) raises KeyError, which is caught and leaves the pier
     * unsorted. `minioOk[i]` and `dockerStatus[i]` answer the i-th start.
     */
    method StartAll(patps: seq<string>, minioOk: seq<bool>, dockerStatus: seq<string>)
      returns (ok: bool, failed: seq<string>, succeeded: seq<string>, ignored: seq<string>, invalid: seq<string>)
      requires |minioOk| == |patps| == |dockerStatus|
      modifies this`urbits, this`containers
      ensures ok
      ensures var outs := StartOutcomes(files, patps, minioOk, dockerStatus);
        && failed == Bucket(patps, outs, "failed") && succeeded == Bucket(patps, outs, "succeeded")
        && ignored == Bucket(patps, outs, "ignored") && invalid == Bucket(patps, outs, "invalid")
      ensures urbits == Reloaded(old(urbits), files, patps)
      ensures containers == Marked(old(containers), succeeded)
    {
      ghost var outs := StartOutcomes(files, patps, minioOk, dockerStatus);
      ok := true;
      failed, succeeded, ignored, invalid := [], [], [], [];
      if |patps| < 1 {
        return;
      }
      var i := 0;
      while i < |patps|
        invariant 0 <= i <= |patps|
        invariant failed == Bucket(patps[..i], outs[..i], "failed")
        invariant succeeded == Bucket(patps[..i], outs[..i], "succeeded")
        invariant ignored == Bucket(patps[..i], outs[..i], "ignored")
        invariant invalid == Bucket(patps[..i], outs[..i], "invalid")
        invariant urbits == Reloaded(old(urbits), files, patps[..i])
        invariant containers == Marked(old(containers), succeeded)
      {
        var p := patps[i];
        var status := Start(p, minioOk[i], dockerStatus[i]);
        BucketStep(patps, outs, i, "failed");
        BucketStep(patps, outs, i, "succeeded");
        BucketStep(patps, outs, i, "ignored");
        BucketStep(patps, outs, i, "invalid");
        ReloadedStep(old(urbits), files, patps, i);
        if status == Text("failed") {
          failed := failed + [p];
        } else if status == Text("succeeded") {
          MarkedAppend(old(containers), succeeded, p);
          succeeded := succeeded + [p];
        } else if status == Text("ignored") {
          ignored := ignored + [p];
        } else if status == Text("invalid") {
          invalid := invalid + [p];
        }
        i := i + 1;
      }
      assert patps[..i] == patps && outs[..i] == outs;
    }

    /**
     * `delete` (api/urbit.py:98-128): remove the container, then the pier
     * from the list, its file and its record. A missing file or record
     * raises after the earlier steps, and the answer is 400 with nothing
     * undone. `deleted` is what `urb_docker.delete` answers.
     */
    method Delete(patp: string, deleted: bool) returns (r: int)
      modifies this`containers, this`piers, this`files, this`urbits
      ensures !deleted ==>
        && r == 400 && containers == old(containers) && piers == old(piers)
        && files == old(files) && urbits == old(urbits)
      ensures deleted ==>
        && containers == old(containers) - {patp} && piers == Without(old(piers), patp)
        && files == old(files) - {patp}
      ensures deleted ==> urbits == if patp in old(files) then old(urbits) - {patp} else old(urbits)
      ensures r == 200 <==> deleted && patp in old(files) && patp in old(urbits)
      ensures r == 200 || r == 400
    {
      if !deleted {
        return 400;
      }
      containers := containers - {patp};
      piers := Without(piers, patp);
      if patp !in files {
        return 400;
      }
      files := files - {patp};
      if patp !in urbits {
        return 400;
      }
      urbits := urbits - {patp};
      return 200;
    }

    /** `list_ships`: one loop over the pier list. */
    method ListShips(hostname: string) returns (ships: seq<ShipEntry>)
      ensures ships == Listed(piers, containers, urbits, hostname)
    {
      ships := [];
      var i := 0;
      while i < |piers|
        invariant 0 <= i <= |piers|
        invariant ships == Listed(piers[..i], containers, urbits, hostname)
      {
        var p := piers[i];
        assert piers[..i + 1][..i] == piers[..i];
        assert piers[..i + 1][i] == p;
        if p in containers && p in urbits {
          ships := ships + [Entry(p, containers[p], urbits[p], hostname)];
        }
        i := i + 1;
      }
      assert piers[..i] == piers;
    }

    /**
     * `get_info` (api/urbit.py:355-409). `hasBucket` says whether a MinIO
     * container exists for the pier and `wgRunning` whether WireGuard runs.
     * A missing record or a `meld_time` that `int()` rejects raises.
     */
    function GetInfo(patp: string, hasBucket: bool, wgRunning: bool, now: int, hostname: string): (r: InfoReply)
      reads this
      ensures r.NoContainer? <==> patp !in containers
      ensures r.InfoRaised? <==> patp in containers && (patp !in urbits || ParseMeldTime(urbits[patp].meldTime).None?)
      ensures r.Details? ==> var c, i := urbits[patp], r.info;
        && i.name == patp && i.running == containers[patp]
        && i.urbitUrl == DisplayUrl(c, hostname)
        && i.remote == (c.network == "wireguard")
        && (i.showUrbWeb == "alias" <==> c.network == "wireguard" && c.showUrbitWeb == "alias" && c.customUrbitWeb != "")
        && (i.showUrbWeb == "alias" || i.showUrbWeb == "default")
        && i.minIOUrl == (if wgRegistered then "https://console.s3." + c.wgUrl else "")
        && i.minIOReg == (c.minioPassword != "")
        && i.autostart == (c.bootStatus != "off")
        && i.containerNames == (if hasBucket then [patp, "minio_" + patp] else [patp])
        && ParseMeldTime(c.meldTime) == Some((i.meldHour, i.meldMinute))
    {
      if patp !in containers then NoContainer
      else if patp !in urbits then InfoRaised
      else
        var c := urbits[patp];
        match ParseMeldTime(c.meldTime)
        case None => InfoRaised
        case Some((h, m)) =>
          var alias := c.network == "wireguard" && c.showUrbitWeb == "alias" && c.customUrbitWeb != "";
          Details(Info(
            patp, containers[patp], wgRegistered, wgRunning, c.bootStatus != "off",
            c.meldSchedule, now, c.meldFrequency, c.meldLast, c.meldNext,
            if hasBucket then [patp, "minio_" + patp] else [patp], h, m,
            c.network == "wireguard", DisplayUrl(c, hostname),
            if wgRegistered then "https://console.s3." + c.wgUrl else "",
            c.minioPassword != "", hasBucket, c.loomSize,
            if alias then "alias" else "default", c.customUrbitWeb, c.customS3Web))
    }

    /**
     * `get_open_urbit_ports` (api/urbit.py:413-423): one above the largest
     * port in use, and never below 8081 and 34344.
     */
    method GetOpenUrbitPorts() returns (http: int, ames: int)
      ensures IsNextPort(HttpPorts(urbits), 8080, http)
      ensures IsNextPort(AmesPorts(urbits), 34343, ames)
    {
      var h, a := 8080, 34343;
      var todo := urbits.Keys;
      while todo != {}
        invariant todo <= urbits.Keys
        invariant 8080 <= h && (h == 8080 || h in HttpPorts(urbits))
        invariant 34343 <= a && (a == 34343 || a in AmesPorts(urbits))
        invariant forall p :: p in urbits && p !in todo ==> urbits[p].httpPort <= h && urbits[p].amesPort <= a
        decreases |todo|
      {
        var p :| p in todo;
        var c := urbits[p];
        if c.httpPort >= h {
          h := c.httpPort;
        }
        if c.amesPort >= a {
          a := c.amesPort;
        }
        todo := todo - {p};
      }
      http, ames := h + 1, a + 1;
    }

    /**
     * `toggle_power` (api/urbit.py:436-457). A running pier is stopped and
     * marked `noboot` unless it is `off`, which answers 400 although the
     * pier was stopped. A stopped pier that is not `off` is marked `boot` and
     * started. A container without a record raises (there is no `try`).
     */
    method TogglePower(patp: string, stopOk: bool, minioOk: bool, dockerStatus: string) returns (r: Outcome)
      modifies this`urbits, this`files, this`containers
      ensures patp !in old(containers) ==>
        && r == Code(400)
        && urbits == old(urbits) && files == old(files) && containers == old(containers)
      ensures patp in old(containers) && patp !in old(urbits) ==>
        && r == Raised
        && urbits == old(urbits) && files == old(files) && containers == old(containers)
      ensures patp in old(containers) && patp in old(urbits) && old(containers)[patp] ==>
        var c := old(urbits)[patp];
        && (!stopOk ==> r == Code(400) && urbits == old(urbits) && files == old(files) && containers == old(containers))
        && (stopOk ==> containers == old(containers)[patp := false])
        && (stopOk && c.bootStatus == "off" ==> r == Code(400) && urbits == old(urbits) && files == old(files))
        && (stopOk && c.bootStatus != "off" ==>
              && r == Code(200)
              && urbits == old(urbits)[patp := c.(bootStatus := "noboot")] && Saved(patp)
              && files == old(files)[patp := Some(Document(urbits[patp]))])
      ensures patp in old(containers) && patp in old(urbits) && !old(containers)[patp] ==>
        var c := old(urbits)[patp];
        && (c.bootStatus == "off" ==> r == Code(400) && urbits == old(urbits) && files == old(files) && containers == old(containers))
        && (c.bootStatus != "off" ==>
              && urbits == old(urbits)[patp := c.(bootStatus := "boot")] && Saved(patp)
              && files == old(files)[patp := Some(Document(urbits[patp]))]
              && (r == Code(200) <==> minioOk && dockerStatus == "succeeded")
              && r in {Code(200), Code(400)}
              && containers == if r == Code(200) then old(containers)[patp := true] else old(containers))
    {
      if patp !in containers {
        return Code(400);
      }
      if patp !in urbits {
        return Raised;
      }
      var c := urbits[patp];
      if containers[patp] {
        if stopOk {
          containers := containers[patp := false];
          if c.bootStatus != "off" {
            urbits := urbits[patp := c.(bootStatus := "noboot")];
            var _ := SaveConfig(patp);
            return Code(200);
          }
        }
      } else {
        if c.bootStatus != "off" {
          urbits := urbits[patp := c.(bootStatus := "boot")];
          var _ := SaveConfig(patp);
          var started := Start(patp, minioOk, dockerStatus);
          if started == Text("succeeded") {
            return Code(200);
          }
        }
      }
      return Code(400);
    }

    /**
     * `toggle_autostart` (api/urbit.py:481-504): `off` becomes `boot` for a
     * running pier and `noboot` for a stopped one; anything else becomes
     * `off`. 200 whenever the container and the record exist.
     */
    method ToggleAutostart(patp: string) returns (r: int)
      modifies this`urbits, this`files
      ensures r == 200 <==> patp in containers && patp in old(urbits)
      ensures r == 200 || r == 400
      ensures r == 400 ==> urbits == old(urbits) && files == old(files)
      ensures r == 200 ==>
        && urbits == old(urbits)[patp := old(urbits)[patp].(bootStatus := NextAutostart(old(urbits)[patp].bootStatus, containers[patp]))]
        && Saved(patp) && files == old(files)[patp := Some(Document(urbits[patp]))]
    {
      if patp !in containers || patp !in urbits {
        return 400;
      }
      var c := urbits[patp];
      var status: string;
      if c.bootStatus == "off" {
        if containers[patp] {
          status := "boot";
        } else {
          status := "noboot";
        }
      } else {
        status := "off";
      }
      urbits := urbits[patp := c.(bootStatus := status)];
      var _ := SaveConfig(patp);
      var _ := SaveConfig(patp);
      return 200;
    }

    /**
     * The shared tail of `toggle_network` and `set_loom`
     * (api/urbit.py:531-535, 562-566): create the container again and start
     * it only if it was running before. `createOk` is what `create` answers.
     */
    method Recreate(patp: string, running: bool, createOk: bool, minioOk: bool, dockerStatus: string)
      requires Saved(patp)
      modifies this`urbits, this`containers
      ensures urbits == old(urbits)
      ensures containers == if createOk then old(containers)[patp := running && minioOk && dockerStatus == "succeeded"] else old(containers)
    {
      if createOk {
        containers := containers[patp := false];
        if running {
          var _ := Start(patp, minioOk, dockerStatus);
        }
      }
    }

    /**
     * `toggle_network` (api/urbit.py:506-543): remove the container, flip
     * the network and recreate it, restarting it only if it was running.
     * Only `network` changes; the ports and `wg_*` fields are kept.
     */
    method ToggleNetwork(patp: string, wgRunning: bool, createOk: bool, minioOk: bool, dockerStatus: string) returns (r: int)
      modifies this`urbits, this`files, this`containers
      ensures r == 200 <==> patp in old(containers) && patp in old(urbits)
      ensures r == 200 || r == 400
      ensures r == 400 ==> urbits == old(urbits) && files == old(files) && containers == old(containers)
      ensures r == 200 ==>
        var c := old(urbits)[patp];
        && urbits == old(urbits)[patp := c.(network := NextNetwork(c.network, wgRegistered, wgRunning))]
        && Saved(patp) && files == old(files)[patp := Some(Document(urbits[patp]))]
        && containers == if createOk then old(containers)[patp := old(containers)[patp] && minioOk && dockerStatus == "succeeded"]
                         else old(containers) - {patp}
    {
      if patp !in containers || patp !in urbits {
        return 400;
      }
      var running := containers[patp];
      var c := urbits[patp];
      containers := containers - {patp};
      urbits := urbits[patp := c.(network := NextNetwork(c.network, wgRegistered, wgRunning))];
      var _ := SaveConfig(patp);
      Recreate(patp, running, createOk, minioOk, dockerStatus);
      return 200;
    }

    /** `set_loom` (api/urbit.py:545-572): the same pattern, setting `loom_size`. */
    method SetLoom(patp: string, size: int, createOk: bool, minioOk: bool, dockerStatus: string) returns (r: int)
      modifies this`urbits, this`files, this`containers
      ensures r == 200 <==> patp in old(containers) && patp in old(urbits)
      ensures r == 200 || r == 400
      ensures r == 400 ==> urbits == old(urbits) && files == old(files) && containers == old(containers)
      ensures r == 200 ==>
        && urbits == old(urbits)[patp := old(urbits)[patp].(loomSize := size)]
        && Saved(patp) && files == old(files)[patp := Some(Document(urbits[patp]))]
        && containers == if createOk then old(containers)[patp := old(containers)[patp] && minioOk && dockerStatus == "succeeded"]
                         else old(containers) - {patp}
    {
      if patp !in containers || patp !in urbits {
        return 400;
      }
      var running := containers[patp];
      containers := containers - {patp};
      urbits := urbits[patp := urbits[patp].(loomSize := size)];
      var _ := SaveConfig(patp);
      Recreate(patp, running, createOk, minioOk, dockerStatus);
      return 200;
    }

    /**
     * `schedule_meld` (api/urbit.py:574-612): move `meld_next` to the new
     * time of day and by the change of frequency, store the time as `HHMM`
     * and the new frequency. An hour or minute `replace` rejects, or a
     * missing record, answers 400 with nothing changed.
     */
    method ScheduleMeld(patp: string, freq: int, hour: int, minute: int) returns (r: int)
      modifies this`urbits, this`files
      ensures r == 200 <==> patp in old(urbits) && IsClock(hour, minute)
      ensures r == 200 || r == 400
      ensures r == 400 ==> urbits == old(urbits) && files == old(files)
      ensures r == 200 ==>
        var c := old(urbits)[patp];
        && urbits == old(urbits)[patp := c.(
             meldNext := Rescheduled(c.meldNext, c.meldFrequency, freq, hour, minute),
             meldTime := FormatMeldTime(hour, minute),
             meldFrequency := freq)]
        && ParseMeldTime(urbits[patp].meldTime) == Some((hour, minute))
        && Saved(patp) && files == old(files)[patp := Some(Document(urbits[patp]))]
    {
      if patp !in urbits || !IsClock(hour, minute) {
        return 400;
      }
      var c := urbits[patp];
      var next := Rescheduled(c.meldNext, c.meldFrequency, freq, hour, minute);
      MeldTimeRoundTrip(hour, minute);
      urbits := urbits[patp := c.(meldNext := next, meldTime := FormatMeldTime(hour, minute), meldFrequency := freq)];
      var _ := SaveConfig(patp);
      return 200;
    }

    /**
     * `get_loopback_addr` (api/urbit.py:700-707): the last word of the
     * last log line announcing the loopback address; None for a missing or
     * empty log, or when no line announces it.
     */
    method GetLoopbackAddr(logs: Option<string>) returns (addr: Option<string>)
      ensures addr.Some? <==> logs.Some? && logs.value != "" && exists i :: 0 <= i < |Split(logs.value, '\n')| && Contains(Split(logs.value, '\n')[i], LoopbackMarker)
      ensures addr.Some? ==> var lines := Split(logs.value, '\n');
        exists i :: 0 <= i < |lines| && Contains(lines[i], LoopbackMarker)
          && addr.value == LastWord(lines[i])
          && forall j :: i < j < |lines| ==> !Contains(lines[j], LoopbackMarker)
    {
      if logs.None? || logs.value == "" {
        return None;
      }
      var lines := Split(logs.value, '\n');
      var k := |lines|;
      while k > 0
        invariant 0 <= k <= |lines|
        invariant forall j :: k <= j < |lines| ==> !Contains(lines[j], LoopbackMarker)
      {
        k := k - 1;
        if Contains(lines[k], LoopbackMarker) {
          assert Contains(Split(logs.value, '\n')[k], LoopbackMarker);
          assert exists i :: 0 <= i < |Split(logs.value, '\n')| && Contains(Split(logs.value, '\n')[i], LoopbackMarker);
          return Some(LastWord(lines[k]));
        }
      }
      return None;
    }

    /**
     * `send_meld` (api/urbit.py:661-696). `execOk` is what the lens command
     * answers. On success `meld_last` is set to now; then `meld_next` is set
     * and saved unless `meld_time` does not parse, which answers False with
     * `meld_last` already changed and unsaved.
     */
    method SendMeld(patp: string, lens: Option<string>, execOk: bool, now: int) returns (ok: bool)
      modifies this`urbits, this`files
      ensures !execOk || patp !in old(urbits) ==> !ok && urbits == old(urbits) && files == old(files)
      ensures execOk && patp in old(urbits) ==>
        && urbits == old(urbits)[patp := Melded(old(urbits)[patp], now).0]
        && ok == Melded(old(urbits)[patp], now).1
        && (ok ==> Saved(patp) && files == old(files)[patp := Some(Document(urbits[patp]))])
        && (!ok ==> files == old(files))
    {
      if !execOk || patp !in urbits {
        return false;
      }
      var c := urbits[patp].(meldLast := now);
      urbits := urbits[patp := c];
      var parsed := ParseMeldTime(c.meldTime);
      if parsed.None? || !IsClock(parsed.value.0, parsed.value.1) {
        return false;
      }
      var (h, m) := parsed.value;
      urbits := urbits[patp := c.(meldNext := NextMeld(now, h, m, c.meldFrequency))];
      var _ := SaveConfig(patp);
      return true;
    }

    /**
     * `send_pack_meld` (api/urbit.py:634-640): find the lens address, send
     * `|pack` (answered by `packOk`), then `|meld`.
     */
    method SendPackMeld(patp: string, logs: Option<string>, packOk: bool, meldOk: bool, now: int) returns (r: int)
      modifies this`urbits, this`files
      ensures r == 200 <==> packOk && meldOk && patp in old(urbits) && Melded(old(urbits)[patp], now).1
      ensures r == 200 || r == 400
      ensures !(packOk && meldOk && patp in old(urbits)) ==> urbits == old(urbits) && files == old(files)
      ensures packOk && meldOk && patp in old(urbits) ==> urbits == old(urbits)[patp := Melded(old(urbits)[patp], now).0]
      ensures r == 200 ==> Saved(patp) && SavedOver(old(files), patp)
      ensures r == 400 ==> files == old(files)
    {
      var lens := GetLoopbackAddr(logs);
      if packOk {
        var melded := SendMeld(patp, lens, meldOk, now);
        if melded {
          return 200;
        }
      }
      return 400;
    }

    /**
     * `toggle_meld` (api/urbit.py:614-632): flip `meld_schedule` and save;
     * if the pier is now scheduled and due, pack and meld it. Always 200; a
     * missing record changes nothing.
     */
    method ToggleMeld(patp: string, now: int, logs: Option<string>, packOk: bool, meldOk: bool) returns (r: int)
      modifies this`urbits, this`files
      ensures r == 200
      ensures patp !in old(urbits) ==> urbits == old(urbits) && files == old(files)
      ensures patp in old(urbits) ==>
        var c := old(urbits)[patp].(meldSchedule := !old(urbits)[patp].meldSchedule);
        && (DueForMeld(c, now) && packOk && meldOk ==> urbits == old(urbits)[patp := Melded(c, now).0])
        && (!(DueForMeld(c, now) && packOk && meldOk) ==> urbits == old(urbits)[patp := c] && Saved(patp))
        && urbits[patp].meldSchedule == !old(urbits)[patp].meldSchedule
        && files == old(files)[patp := Some(Document(
             if DueForMeld(c, now) && packOk && meldOk && Melded(c, now).1 then Melded(c, now).0 else c))]
    {
      if patp !in urbits {
        return 200;
      }
      var c := urbits[patp].(meldSchedule := !urbits[patp].meldSchedule);
      urbits := urbits[patp := c];
      var _ := SaveConfig(patp);
      if c.meldSchedule && c.meldNext <= now {
        Overwritten(old(files), patp, Some(Document(c)), Some(Document(Melded(c, now).0)));
        var _ := SendPackMeld(patp, logs, packOk, meldOk, now);
      }
      return 200;
    }

    /** `add_urbit` (api/urbit.py:710-720): the pier moves to the end of the list. */
    method AddUrbit(patp: string) returns (ok: bool)
      modifies this`piers
      ensures ok && piers == Without(old(piers), patp) + [patp]
    {
      piers := Without(piers, patp) + [patp];
      return true;
    }

    /**
     * `set_wireguard_network` (api/urbit.py:800-811): the anchor URL and
     * ports are stored and saved; False without a record.
     */
    method SetWireguardNetwork(patp: string, url: string, http: Option<int>, ames: Option<int>, s3: Option<int>, console: Option<int>)
      returns (ok: bool)
      modifies this`urbits, this`files
      ensures ok <==> patp in old(urbits)
      ensures !ok ==> urbits == old(urbits) && files == old(files)
      ensures ok ==>
        && urbits == old(urbits)[patp := old(urbits)[patp].(wgUrl := url, wgHttpPort := http, wgAmesPort := ames, wgS3Port := s3, wgConsolePort := console)]
        && Saved(patp) && files == old(files)[patp := Some(Document(urbits[patp]))]
    {
      if patp !in urbits {
        return false;
      }
      urbits := urbits[patp := urbits[patp].(wgUrl := url, wgHttpPort := http, wgAmesPort := ames, wgS3Port := s3, wgConsolePort := console)];
      ok := SaveConfig(patp);
    }

    /**
     * `register_urbit` (api/urbit.py:723-798). Without WireGuard it answers
     * True at once. Otherwise, when the first `get_status` answers, the
     * services registered for the pier are scanned (a URL with fewer than
     * three labels raises there) and the missing ones registered; then the
     * anchor is polled until it reports all five values, which are stored
     * by `set_wireguard_network`.
     */
    method RegisterUrbit(patp: string, replies: AnchorReplies)
      returns (r: Step, calls: seq<Anchor.ServiceCall>, sleeps: seq<int>)
      modifies this`urbits, this`files
      ensures !wgRegistered ==> r == Returned(true) && calls == [] && sleeps == [] && urbits == old(urbits) && files == old(files)
      ensures !(r.Returned? && r.ok) ==> urbits == old(urbits) && files == old(files)
      ensures r == Raises <==> wgRegistered && replies.first.Some? && Anchor.HasShortUrl(replies.first.value)
      ensures r == Raises ==> calls == []
      ensures wgRegistered && replies.first.None? ==> calls == []
      ensures wgRegistered && replies.first.Some? && !Anchor.HasShortUrl(replies.first.value) ==>
        var d := replies.first.value;
        calls == Anchor.RegistrationCalls(patp, Anchor.Services(
          Anchor.HasService(patp, d, "urbit-web"), Anchor.HasService(patp, d, "urbit-ames"),
          Anchor.HasService(patp, d, "minio"), Anchor.HasService(patp, d, "minio-console"),
          Anchor.HasService(patp, d, "minio-bucket")))
      ensures forall k :: 0 <= k < |sleeps| ==> sleeps[k] == Anchor.Backoff(k)
      ensures r == RegisterStep(wgRegistered, endpointUrl, patp, replies, patp in old(urbits))
      ensures wgRegistered && r != Raises ==>
        |sleeps| == Anchor.PollAfter(patp, Anchor.PubUrl(endpointUrl), PollStart(replies), replies.rounds).naps
      ensures !wgRegistered || r == Raises ==> sleeps == []
      ensures r == Returned(true) && wgRegistered ==>
        && urbits == old(urbits)[patp := AnchorStored(old(urbits)[patp], RegistrationPoll(endpointUrl, patp, replies))]
        && SavedOver(old(files), patp)
      ensures r == Returned(false) ==> wgRegistered && patp !in old(urbits)
      ensures r == Returned(true) && wgRegistered ==>
        var pub := Anchor.PubUrl(endpointUrl);
        && patp in old(urbits) && Saved(patp)
        && urbits == old(urbits)[patp := urbits[patp]]
        && urbits[patp] == old(urbits)[patp].(
             wgUrl := urbits[patp].wgUrl, wgHttpPort := urbits[patp].wgHttpPort,
             wgAmesPort := urbits[patp].wgAmesPort, wgS3Port := urbits[patp].wgS3Port,
             wgConsolePort := urbits[patp].wgConsolePort)
        && urbits[patp].wgUrl == Anchor.WebUrl(patp, pub)
        && urbits[patp].wgHttpPort.Some? && urbits[patp].wgAmesPort.Some?
        && urbits[patp].wgS3Port.Some? && urbits[patp].wgConsolePort.Some?
        && Anchor.Provenance(
             Anchor.Found(Some(urbits[patp].wgUrl), urbits[patp].wgHttpPort, urbits[patp].wgAmesPort,
                          urbits[patp].wgS3Port, urbits[patp].wgConsolePort),
             Anchor.Offered(PollStart(replies), replies.rounds), patp, pub)
    {
      calls, sleeps := [], [];
      if !wgRegistered {
        return Returned(true), calls, sleeps;
      }
      if replies.first.Some? {
        var scan := Anchor.ScanServices(patp, replies.first.value);
        if scan.None? {
          return Raises, calls, sleeps;
        }
        calls := Anchor.RegistrationCalls(patp, scan.value);
      }
      var pub := Anchor.PubUrl(endpointUrl);
      var poll;
      poll, sleeps := Anchor.PollAnchor(patp, pub, PollStart(replies), replies.rounds);
      if poll.Stalled? {
        return Hangs, calls, sleeps;
      }
      var ok := SetWireguardNetwork(patp, poll.svcUrl, Some(poll.http), Some(poll.ames), Some(poll.s3), Some(poll.console));
      return Returned(ok), calls, sleeps;
    }

    /**
     * `update_wireguard_network` (api/urbit.py:881-942): store the anchor's
     * current URL, ports and alias (`"null"` meaning none). Only if one of
     * them differs is the record saved and, for a WireGuard pier, the
     * container rebuilt and restarted if it was running. `removeOk` and
     * `createOk` answer the container removal and creation.
     */
    method UpdateWireguardNetwork(patp: string, url: string, http: Option<int>, ames: Option<int>, s3: Option<int>,
                                  console: Option<int>, alias: string, removeOk: bool, createOk: bool,
                                  minioOk: bool, dockerStatus: string)
      returns (ok: bool)
      modifies this`urbits, this`files, this`containers
      ensures ok <==> patp in old(urbits)
      ensures !ok ==> urbits == old(urbits) && files == old(files) && containers == old(containers)
      ensures ok ==>
        var c := old(urbits)[patp];
        var updated := c.(wgUrl := url, wgHttpPort := http, customUrbitWeb := if alias == "null" then "" else alias,
                        wgAmesPort := ames, wgS3Port := s3, wgConsolePort := console);
        && urbits == old(urbits)[patp := updated]
        && (updated == c ==> files == old(files) && containers == old(containers))
        && (updated != c ==> Saved(patp) && files == old(files)[patp := Some(Document(updated))])
        && (updated != c && c.network == "none" ==> containers == old(containers))
        && (updated != c && c.network != "none" ==>
              containers == Rebuilt(old(containers), patp, removeOk, createOk, minioOk, dockerStatus))
    {
      if patp !in urbits {
        return false;
      }
      var a := if alias == "null" then "" else alias;
      var previous := urbits[patp];
      // the six comparisons of the source, each assigning the new value
      var c := previous.(wgUrl := url, wgHttpPort := http, customUrbitWeb := a, wgAmesPort := ames, wgS3Port := s3, wgConsolePort := console);
      var changed := c != previous;
      urbits := urbits[patp := c];
      if changed {
        var _ := SaveConfig(patp);
        if c.network != "none" {
          Rebuild(patp, removeOk, createOk, minioOk, dockerStatus);
        }
      }
      return true;
    }

    /**
     * The container rebuild of `update_wireguard_network`
     * (api/urbit.py:921-935): remove the container and, if that worked,
     * create it again; start it if it was running.
     */
    method Rebuild(patp: string, removeOk: bool, createOk: bool, minioOk: bool, dockerStatus: string)
      requires Saved(patp)
      modifies this`urbits, this`containers
      ensures urbits == old(urbits)
      ensures containers == Rebuilt(old(containers), patp, removeOk, createOk, minioOk, dockerStatus)
    {
      if patp !in containers {
        return;
      }
      var running := containers[patp];
      if removeOk {
        containers := containers - {patp};
        if createOk {
          containers := containers[patp := false];
        }
      }
      if running {
        var _ := Start(patp, minioOk, dockerStatus);
      }
    }

    /**
     * `dns_record` (api/urbit.py:994-1023): up to three attempts, sleeping
     * two, four, then six seconds after each miss; True on the first attempt
     * where both names resolve to the same address.
     */
    method DnsRecord(anchorName: string, aliasName: string, lookups: seq<DnsAnswer>) returns (ok: bool, sleeps: seq<int>)
      ensures ok <==> exists k :: 0 <= k < 3 && Agree(Lookup(lookups, k))
      ensures forall k :: 0 <= k < |sleeps| ==> sleeps[k] == 2 * (k + 1) && !Agree(Lookup(lookups, k))
      ensures ok ==> |sleeps| < 3 && Agree(Lookup(lookups, |sleeps|))
      ensures !ok ==> sleeps == [2, 4, 6]
    {
      var count := 0;
      sleeps := [];
      while count < 3
        invariant 0 <= count <= 3 && |sleeps| == count
        invariant forall k :: 0 <= k < count ==> sleeps[k] == 2 * (k + 1) && !Agree(Lookup(lookups, k))
      {
        if Agree(Lookup(lookups, count)) {
          return true, sleeps;
        }
        count := count + 1;
        sleeps := sleeps + [count * 2];
      }
      ok := false;
    }

    /**
     * `set_minio` (api/urbit.py:814-835): create the service account
     * (answered by `accountOk`) and point the ship at the S3 endpoint.
     */
    method SetMinio(patp: string, accountOk: bool) returns (r: int, endpoint: Option<string>)
      requires patp in urbits
      ensures r == (if accountOk then 200 else 400)
      ensures endpoint == if accountOk then Some(MinioEndpoint(urbits[patp])) else None
    {
      if !accountOk {
        return 400, None;
      }
      return 200, Some(MinioEndpoint(urbits[patp]));
    }

    /**
     * `custom_domain` (api/urbit.py:945-992): set or clear the custom
     * domain of the ship or of its MinIO. Setting one needs the alias to
     * resolve like the anchor URL and the anchor to accept it; clearing one
     * needs the anchor only. A missing record raises.
     */
    method CustomDomain(patp: string, req: DomainRequest, lookups: seq<DnsAnswer>, aliasOk: bool, accountOk: bool)
      returns (r: Outcome)
      modifies this`urbits, this`files
      ensures patp !in old(urbits) ==> r == Raised && urbits == old(urbits) && files == old(files)
      ensures r != Code(200) && !(req.svcType == "minio" && req.relink) ==> urbits == old(urbits) && files == old(files)
      ensures patp in old(urbits) ==>
        var c := old(urbits)[patp];
        var resolves := exists k :: 0 <= k < 3 && Agree(Lookup(lookups, k));
        && (req.svcType == "urbit-web" && req.operation == "create" ==>
              if resolves && aliasOk
              then r == Code(200) && urbits == old(urbits)[patp := c.(customUrbitWeb := req.alias, showUrbitWeb := "alias")] && SavedOver(old(files), patp)
              else r == Code(400))
        && (req.svcType == "urbit-web" && req.operation == "delete" ==>
              if aliasOk
              then r == Code(200) && urbits == old(urbits)[patp := c.(customUrbitWeb := "", showUrbitWeb := "default")] && SavedOver(old(files), patp)
              else r == Code(400))
        && (req.svcType == "minio" && req.operation == "create" ==>
              if resolves && aliasOk
              then urbits == old(urbits)[patp := c.(customS3Web := req.alias)] && SavedOver(old(files), patp)
                   && r == Code(if !req.relink || accountOk then 200 else 400)
              else r == Code(400) && urbits == old(urbits) && files == old(files))
        && (req.svcType == "minio" && req.operation == "delete" ==>
              if aliasOk
              then urbits == old(urbits)[patp := c.(customS3Web := "")] && SavedOver(old(files), patp)
                   && r == Code(if !req.relink || accountOk then 200 else 400)
              else r == Code(400) && urbits == old(urbits) && files == old(files))
        && (!(req.svcType in {"urbit-web", "minio"} && req.operation in {"create", "delete"}) ==>
              r == Code(400) && urbits == old(urbits) && files == old(files))
    {
      if patp !in urbits {
        return Raised;
      }
      var c := urbits[patp];
      if req.svcType == "urbit-web" {
        if req.operation == "create" {
          var found, _ := DnsRecord(c.wgUrl, req.alias, lookups);
          if found && aliasOk {
            urbits := urbits[patp := c.(customUrbitWeb := req.alias, showUrbitWeb := "alias")];
            var _ := SaveConfig(patp);
            return Code(200);
          }
        } else if req.operation == "delete" {
          if aliasOk {
            urbits := urbits[patp := c.(customUrbitWeb := "", showUrbitWeb := "default")];
            var _ := SaveConfig(patp);
            return Code(200);
          }
        }
      }
      if req.svcType == "minio" {
        if req.operation == "create" {
          var found, _ := DnsRecord("s3." + c.wgUrl, req.alias, lookups);
          if found && aliasOk {
            urbits := urbits[patp := c.(customS3Web := req.alias)];
            var _ := SaveConfig(patp);
            if !req.relink {
              return Code(200);
            }
            var code, _ := SetMinio(patp, accountOk);
            return Code(code);
          }
        } else if req.operation == "delete" {
          if aliasOk {
            urbits := urbits[patp := c.(customS3Web := "")];
            var _ := SaveConfig(patp);
            if !req.relink {
              return Code(200);
            }
            var code, _ := SetMinio(patp, accountOk);
            return Code(code);
          }
        }
      }
      return Code(400);
    }

    /** `swap_url` (api/urbit.py:1026-1040): `alias` becomes `default`, anything else `alias`. */
    method SwapUrl(patp: string) returns (r: int)
      modifies this`urbits, this`files
      ensures r == 200 <==> patp in old(urbits)
      ensures r == 200 || r == 400
      ensures r == 400 ==> urbits == old(urbits) && files == old(files)
      ensures r == 200 ==>
        var c := old(urbits)[patp];
        && urbits == old(urbits)[patp := c.(showUrbitWeb := if c.showUrbitWeb == "alias" then "default" else "alias")]
        && SavedOver(old(files), patp)
    {
      if patp !in urbits {
        return 400;
      }
      var c := urbits[patp];
      urbits := urbits[patp := c.(showUrbitWeb := if c.showUrbitWeb == "alias" then "default" else "alias")];
      var _ := SaveConfig(patp);
      return 200;
    }

    /**
     * The common opening of `create` and `create_existing`: allocate ports,
     * build the record and save it.
     */
    method NewRecord(patp: string)
      modifies this`urbits, this`files
      ensures urbits.Keys == old(urbits).Keys + {patp}
      ensures forall q :: q in old(urbits) && q != patp ==> urbits[q] == old(urbits)[q]
      ensures urbits[patp].pierName == patp
      ensures IsNextPort(HttpPorts(old(urbits)), 8080, urbits[patp].httpPort)
      ensures IsNextPort(AmesPorts(old(urbits)), 34343, urbits[patp].amesPort)
      ensures urbits[patp] == BuildConfig(patp, urbits[patp].httpPort, urbits[patp].amesPort)
      ensures Saved(patp) && files == old(files)[patp := Some(Document(urbits[patp]))]
      ensures urbits == old(urbits)[patp := urbits[patp]]
    {
      var http, ames := GetOpenUrbitPorts();
      urbits := urbits[patp := BuildConfig(patp, http, ames)];
      var _ := SaveConfig(patp);
    }

    /**
     * The steps `create` and `create_existing` share once the record is
     * saved (api/urbit.py:233-242, 340-347): create the container, list
     * the pier, register it with the anchor and start it.
     */
    method Launch(patp: string, replies: BootReplies) returns (l: LaunchStep)
      requires Saved(patp)
      modifies this`urbits, this`files, this`containers, this`piers
      ensures l == LaunchOutcome(patp, replies, wgRegistered, endpointUrl)
      ensures patp in urbits && Saved(patp) && SavedOver(old(files), patp)
      ensures urbits == old(urbits)[patp := Anchored(old(urbits)[patp], patp, replies, wgRegistered, endpointUrl)]
      ensures AnchorOnly(old(urbits)[patp], urbits[patp])
      ensures containers == if replies.created then old(containers)[patp := l == Launched(Text("succeeded"))] else old(containers)
      ensures piers == if replies.created then Without(old(piers), patp) + [patp] else old(piers)
    {
      Rewritten(files, patp);
      Rewritten(urbits, patp);
      if !replies.created {
        return NotCreated;
      }
      containers := containers[patp := false];
      var _ := AddUrbit(patp);
      var reg, _, _ := RegisterUrbit(patp, replies.anchor);
      if reg == Hangs {
        return RegistrationHangs;
      }
      if reg != Returned(true) {
        return NotRegistered;
      }
      var started := Start(patp, replies.minioOk, replies.dockerStatus);
      Overwritten(old(containers), patp, false, started == Text("succeeded"));
      return Launched(started);
    }

    /**
     * `create` (api/urbit.py:214-245): check the name, build and save the
     * record, then delete any old container, create one, list the pier,
     * register it with the anchor and start it; 200 only if every step
     * succeeds, with nothing undone otherwise.
     */
    method Create(patp: string, key: string, replies: BootReplies) returns (r: Outcome)
      modifies this`urbits, this`files, this`containers, this`piers
      ensures r == Code(200) || r == Code(400) || r == Stalled
      ensures !validName(patp) ==>
        && r == Code(400)
        && urbits == old(urbits) && files == old(files) && containers == old(containers) && piers == old(piers)
      ensures validName(patp) ==>
        var l := LaunchOutcome(patp, replies, wgRegistered, endpointUrl);
        && (r == Code(200) <==> replies.deleted && l == Launched(Text("succeeded")))
        && (r == Stalled <==> replies.deleted && l == RegistrationHangs)
      ensures validName(patp) ==>
        && patp in urbits && Saved(patp) && SavedOver(old(files), patp)
        && urbits == old(urbits)[patp := urbits[patp]]
        && IsNextPort(HttpPorts(old(urbits)), 8080, urbits[patp].httpPort)
        && IsNextPort(AmesPorts(old(urbits)), 34343, urbits[patp].amesPort)
        && (var c := BuildConfig(patp, urbits[patp].httpPort, urbits[patp].amesPort);
            urbits[patp] == if replies.deleted then Anchored(c, patp, replies, wgRegistered, endpointUrl) else c)
        && containers == (if !replies.deleted then old(containers)
                          else if !replies.created then old(containers) - {patp}
                          else old(containers)[patp := r == Code(200)])
        && piers == if replies.deleted && replies.created then Without(old(piers), patp) + [patp] else old(piers)
    {
      if !validName(patp) {
        return Code(400);
      }
      NewRecord(patp);
      if !replies.deleted {
        return Code(400);
      }
      ghost var u := urbits;
      containers := containers - {patp};
      var l := Launch(patp, replies);
      Overwritten(old(files), patp, Some(Document(u[patp])), Some(Document(urbits[patp])));
      Overwritten(old(urbits), patp, u[patp], urbits[patp]);
      RemovedThenSet(old(containers), patp, l == Launched(Text("succeeded")));
      if l == RegistrationHangs {
        return Stalled;
      }
      if l == Launched(Text("succeeded")) {
        return Code(200);
      }
      return Code(400);
    }

    /**
     * `create_existing` (api/urbit.py:325-352): as `create` for a pier whose
     * data was uploaded, marking it `booting`, without deleting anything
     * first, and answering what the start answers.
     */
    method CreateExisting(patp: string, replies: BootReplies) returns (r: Outcome)
      modifies this`urbits, this`files, this`containers, this`piers, this`uploadStatus
      ensures r.Text? || r == Null || r == Stalled
      ensures !validName(patp) ==>
        && r == Text("Failed to boot " + patp)
        && urbits == old(urbits) && files == old(files) && containers == old(containers)
        && piers == old(piers) && uploadStatus == old(uploadStatus)
      ensures validName(patp) ==> r == ExistingAnswer(patp, LaunchOutcome(patp, replies, wgRegistered, endpointUrl))
      ensures validName(patp) ==>
        && uploadStatus == old(uploadStatus)[patp := Booting]
        && patp in urbits && Saved(patp) && SavedOver(old(files), patp)
        && urbits == old(urbits)[patp := urbits[patp]]
        && IsNextPort(HttpPorts(old(urbits)), 8080, urbits[patp].httpPort)
        && IsNextPort(AmesPorts(old(urbits)), 34343, urbits[patp].amesPort)
        && urbits[patp] == Anchored(BuildConfig(patp, urbits[patp].httpPort, urbits[patp].amesPort), patp, replies, wgRegistered, endpointUrl)
        && containers == (if replies.created then old(containers)[patp := r == Text("succeeded")] else old(containers))
        && piers == if replies.created then Without(old(piers), patp) + [patp] else old(piers)
    {
      if !validName(patp) {
        return Text("Failed to boot " + patp);
      }
      uploadStatus := uploadStatus[patp := Booting];
      NewRecord(patp);
      ghost var u := urbits;
      var l := Launch(patp, replies);
      Overwritten(old(files), patp, Some(Document(u[patp])), Some(Document(urbits[patp])));
      Overwritten(old(urbits), patp, u[patp], urbits[patp]);
      FailedToBootDiffers(patp);
      if l == RegistrationHangs {
        return Stalled;
      }
      if l.Launched? {
        return l.start;
      }
      return Text("Failed to boot " + patp);
    }

    /**
     * `extract_pier` (api/urbit.py:267-322): mark the upload `setup`, then
     * for a zip or tarball read the member sizes (`archive`, None when the
     * archive cannot be opened) and mark it `extracting` with the total
     * size before extracting (`extractOk`); then mark it `cleaning`. A name
     * with any other ending extracts nothing and still goes on.
     */
    method ExtractPier(filename: string, archive: Option<seq<nat>>, extractOk: bool) returns (r: string)
      modifies this`uploadStatus
      ensures var p := PierOf(filename);
        && (KindOf(filename) != Unrecognised && archive.None? ==>
              r == "File extraction failed" && uploadStatus == old(uploadStatus)[p := Setup])
        && (KindOf(filename) != Unrecognised && archive.Some? && !extractOk ==>
              r == "File extraction failed" && uploadStatus == old(uploadStatus)[p := Extracting(0, Sum(archive.value))])
        && (KindOf(filename) == Unrecognised || (archive.Some? && extractOk) ==>
              r == "to-create" && uploadStatus == old(uploadStatus)[p := Cleaning])
    {
      var p := PierOf(filename);
      uploadStatus := uploadStatus[p := Setup];
      if KindOf(filename) != Unrecognised {
        if archive.None? {
          return "File extraction failed";
        }
        uploadStatus := uploadStatus[p := Extracting(0, Sum(archive.value))];
        if !extractOk {
          return "File extraction failed";
        }
      }
      uploadStatus := uploadStatus[p := Cleaning];
      return "to-create";
    }

    /**
     * `boot_existing` (api/urbit.py:247-264): check the name the archive
     * gives, extract the archive and boot the pier. On a failure the upload
     * status is dropped and the failure answered; on success it becomes
     * `done`.
     */
    method BootExisting(filename: string, archive: Option<seq<nat>>, extractOk: bool, replies: BootReplies)
      returns (r: Outcome)
      modifies this`urbits, this`files, this`containers, this`piers, this`uploadStatus
      ensures !validName(PierOf(filename)) ==>
        && r == Text("File is invalid")
        && urbits == old(urbits) && files == old(files) && containers == old(containers)
        && piers == old(piers) && uploadStatus == old(uploadStatus)
      ensures validName(PierOf(filename)) && KindOf(filename) != Unrecognised && !(archive.Some? && extractOk) ==>
        && r == Text("File extraction failed") && uploadStatus == old(uploadStatus) - {PierOf(filename)}
        && urbits == old(urbits) && files == old(files) && containers == old(containers) && piers == old(piers)
      ensures validName(PierOf(filename)) && (KindOf(filename) == Unrecognised || (archive.Some? && extractOk)) ==>
        var p := PierOf(filename);
        && r == UploadAnswer(ExistingAnswer(p, LaunchOutcome(p, replies, wgRegistered, endpointUrl)))
        && (r == Stalled ==> uploadStatus == old(uploadStatus)[p := Booting])
        && p in urbits && SavedOver(old(files), p)
        && urbits == old(urbits)[p := urbits[p]]
        && containers == (if replies.created then old(containers)[p := r == Code(200)] else old(containers))
        && piers == if replies.created then Without(old(piers), p) + [p] else old(piers)
      ensures r == Code(200) ==>
        && uploadStatus == old(uploadStatus)[PierOf(filename) := Done]
        && PierOf(filename) in containers && containers[PierOf(filename)]
        && piers == Without(old(piers), PierOf(filename)) + [PierOf(filename)]
      ensures validName(PierOf(filename)) && r != Code(200) && r != Stalled ==>
        uploadStatus == old(uploadStatus) - {PierOf(filename)}
    {
      var p := PierOf(filename);
      if !validName(p) {
        return Text("File is invalid");
      }
      ghost var before := uploadStatus;
      var extracted := ExtractPier(filename, archive, extractOk);
      SetThenRemoved(before, p, uploadStatus[p]);
      if extracted != "to-create" {
        uploadStatus := uploadStatus - {p};
        return Text(extracted);
      }
      r := BootExtracted(p, replies);
      ExistingAnswers(p, replies, wgRegistered, endpointUrl);
      Overwritten(before, p, Cleaning, Booting);
      Overwritten(before, p, Cleaning, Done);
      SetThenRemoved(before, p, Cleaning);
    }

    /**
     * The end of `boot_existing` once the archive is extracted
     * (api/urbit.py:257-262): boot the pier with `create_existing`, then
     * mark the upload `done` on success or drop it on a failure.
     */
    method BootExtracted(patp: string, replies: BootReplies) returns (r: Outcome)
      requires validName(patp)
      modifies this`urbits, this`files, this`containers, this`piers, this`uploadStatus
      ensures r == UploadAnswer(ExistingAnswer(patp, LaunchOutcome(patp, replies, wgRegistered, endpointUrl)))
      ensures uploadStatus == if r == Stalled then old(uploadStatus)[patp := Booting]
                              else if r == Code(200) then old(uploadStatus)[patp := Done]
                              else old(uploadStatus) - {patp}
      ensures patp in urbits && SavedOver(old(files), patp) && urbits == old(urbits)[patp := urbits[patp]]
      ensures containers == if replies.created then old(containers)[patp := r == Code(200)] else old(containers)
      ensures piers == if replies.created then Without(old(piers), patp) + [patp] else old(piers)
    {
      ghost var before := uploadStatus;
      var created := CreateExisting(patp, replies);
      Overwritten(before, patp, Booting, Done);
      SetThenRemoved(before, patp, Booting);
      if created == Stalled {
        return Stalled;
      }
      if created != Text("succeeded") {
        uploadStatus := uploadStatus - {patp};
        return created;
      }
      uploadStatus := uploadStatus[patp := Done];
      return Code(200);
    }
  }

  /** `'http: loopback live on'` */
  const LoopbackMarker: string := "http: loopback live on"

  /** `ln.split(' ')[-1]` */
  function LastWord(line: string): string
  {
    var words := Split(line, ' ');
    words[|words| - 1]
  }

  /**
   * The details `get_info` gives for a listed pier show the same URL,
   * running state and remote flag as its `list_ships` entry.
   */
  lemma InfoMatchesListing(u: Urbit, patp: string, hasBucket: bool, wgRunning: bool, now: int, hostname: string)
    requires u.GetInfo(patp, hasBucket, wgRunning, now, hostname).Details?
    requires patp in u.piers
    ensures var i := u.GetInfo(patp, hasBucket, wgRunning, now, hostname).info;
      ShipEntry(patp, i.running, i.urbitUrl, i.remote) in Listed(u.piers, u.containers, u.urbits, hostname)
  {
    ListedExactly(u.piers, u.containers, u.urbits, hostname);
  }
}
