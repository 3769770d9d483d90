/**
 * The two pieces of api/groundseg.py that carry logic of their own: the
 * chunked assembly of an uploaded pier archive in `pier_upload`, and one
 * sweep of `meld_loop` over the piers.
 */
module GroundSeg {
  import opened Wrappers
  import opened Strings
  import opened PierData
  import opened MeldClock
  import Urbits

  type byte = bv8

  /**
   * The session id `pier_upload` uses (api/groundseg.py:272-275): the query
   * argument when its string form has 64 characters, else the cookie. A
   * missing argument prints as `None`, four characters, so the cookie is
   * used then.
   */
  function ChooseSession(arg: Option<string>, cookie: Option<string>): (s: Option<string>)
    ensures s.Some? ==> s == arg || s == cookie
    ensures arg.Some? && |arg.value| == 64 <==> s.Some? && s == arg && |s.value| == 64
  {
    if arg.Some? && |arg.value| == 64 then arg else cookie
  }

  /** A session id of any other length never wins over the cookie. */
  lemma ShortArgumentUsesCookie(arg: Option<string>, cookie: Option<string>)
    requires arg.None? || |arg.value| != 64
    ensures ChooseSession(arg, cookie) == cookie
  {
  }

  /**
   * One `dropzone` chunk as the form fields give it; the integer fields
   * are the values `int(...)` reads.
   */
  datatype Chunk = Chunk(
    filename: string,
    index: int,
    byteOffset: int,
    totalChunks: int,
    totalSize: int,
    data: seq<byte>)

  /**
   * The upload files after storing one chunk (api/groundseg.py:299-315):
   * chunk 0 removes the file first; a successful write then appends the
   * data to what is there. The file is opened for appending, so the seek
   * to the declared offset moves nothing and the offset plays no part.
   */
  function StoreChunk(files: map<string, seq<byte>>, f: string, index: int, data: seq<byte>, writeOk: bool)
    : (r: map<string, seq<byte>>)
    ensures forall g :: g != f ==> (g in r <==> g in files) && (g in r ==> r[g] == files[g])
    ensures writeOk ==> f in r && r[f] == (if index != 0 && f in files then files[f] else []) + data
    ensures !writeOk ==> (f in r <==> index != 0 && f in files) && (f in r ==> r[f] == files[f])
  {
    var cleared := if index == 0 then files - {f} else files;
    if writeOk then cleared[f := (if f in cleared then cleared[f] else []) + data] else cleared
  }

  /** `b"".join(ds)` */
  function Concat(ds: seq<seq<byte>>): (r: seq<byte>)
  {
    if ds == [] then [] else Concat(ds[..|ds| - 1]) + ds[|ds| - 1]
  }

  /** The upload files after chunks 0, 1, ... carrying `ds` were stored in order, every write succeeding. */
  function Delivered(files: map<string, seq<byte>>, f: string, ds: seq<seq<byte>>): map<string, seq<byte>>
  {
    if ds == [] then files
    else StoreChunk(Delivered(files, f, ds[..|ds| - 1]), f, |ds| - 1, ds[|ds| - 1], true)
  }

  /**
   * api/groundseg.py:299-315: whatever was left by an earlier upload, the
   * chunks of one upload delivered in order assemble to the concatenation
   * of their data, and the other files are untouched.
   */
  lemma {:induction false} DeliveredAssembles(files: map<string, seq<byte>>, f: string, ds: seq<seq<byte>>)
    requires |ds| >= 1
    ensures f in Delivered(files, f, ds) && Delivered(files, f, ds)[f] == Concat(ds)
    ensures forall g :: g != f ==> (g in Delivered(files, f, ds) <==> g in files)
    ensures forall g :: g != f && g in files ==> Delivered(files, f, ds)[g] == files[g]
  {
    var n := |ds| - 1;
    if n == 0 {
      assert ds[..n] == [];
      assert Concat(ds) == Concat(ds[..0]) + ds[0];
    } else {
      DeliveredAssembles(files, f, ds[..n]);
    }
  }

  /** The upload files as `pier_upload` keeps them, by file name. */
  class Uploads {
    var files: map<string, seq<byte>>

    constructor(files: map<string, seq<byte>>)
      ensures this.files == files
    {
      this.files := files;
    }

    /**
     * `pier_upload` (api/groundseg.py:270-336). A request without a known
     * session answers 404 and touches nothing. Otherwise the chunk is
     * stored; a failed write answers "Can't write file"; the final chunk
     * (index + 1 == count) answers "File size mismatched" when the file is
     * not of the declared size and otherwise what booting the uploaded pier
     * answers, `boot`; any other chunk answers 200.
     */
    method PierUpload(argSession: Option<string>, cookieSession: Option<string>, sessions: set<string>,
                      chunk: Chunk, writeOk: bool, boot: Outcome) returns (r: Outcome)
      modifies this`files
      ensures var s := ChooseSession(argSession, cookieSession);
        s.None? || s.value !in sessions ==> r == Code(404) && files == old(files)
      ensures var s := ChooseSession(argSession, cookieSession);
        s.Some? && s.value in sessions ==>
          && files == StoreChunk(old(files), chunk.filename, chunk.index, chunk.data, writeOk)
          && (!writeOk ==> r == Text("Can't write file"))
      ensures writeOk && ChooseSession(argSession, cookieSession).Some?
              && ChooseSession(argSession, cookieSession).value in sessions ==>
        && (chunk.index + 1 != chunk.totalChunks ==> r == Code(200))
        && (chunk.index + 1 == chunk.totalChunks && |files[chunk.filename]| != chunk.totalSize ==>
              r == Text("File size mismatched"))
        && (chunk.index + 1 == chunk.totalChunks && |files[chunk.filename]| == chunk.totalSize ==> r == boot)
    {
      var session := ChooseSession(argSession, cookieSession);
      if session.None? || session.value !in sessions {
        return Code(404);
      }
      var f := chunk.filename;
      if chunk.index == 0 {
        files := files - {f};
      }
      if !writeOk {
        return Text("Can't write file");
      }
      var current := if f in files then files[f] else [];
      files := files[f := current + chunk.data];
      if chunk.index + 1 == chunk.totalChunks {
        if |files[f]| != chunk.totalSize {
          return Text("File size mismatched");
        }
        return boot;
      }
      return Code(200);
    }
  }

  /**
   * The answers one pier's turn of a meld sweep receives: the clock it
   * reads, whether looking up its lens address raises, the container log
   * that lookup reads, and what the lens command answers.
   */
  datatype SweepStep = SweepStep(now: int, raises: bool, logs: Option<string>, execOk: bool)

  /** A pier the sweep reaches with its current record due for a meld. */
  predicate DueIn(m: map<string, PierConfig>, p: string, now: int)
  {
    p in m && Urbits.DueForMeld(m[p], now)
  }

  /**
   * The records and pier files after the turn of a due pier
   * (api/groundseg.py:157-158, api/urbit.py:673-692): a meld whose lens
   * command succeeds updates the record, and saves it when `meld_time`
   * parses.
   */
  function Turn(m: map<string, PierConfig>, files: map<string, Option<PierDocument>>, p: string, st: SweepStep)
    : (r: (map<string, PierConfig>, map<string, Option<PierDocument>>))
    requires p in m
    ensures r.0.Keys == m.Keys
    ensures forall q :: q != p && q in m ==> r.0[q] == m[q]
    ensures forall q :: q != p ==> (q in r.1 <==> q in files) && (q in r.1 ==> r.1[q] == files[q])
    ensures r.0[p] == if st.execOk then Urbits.Melded(m[p], st.now).0 else m[p]
  {
    var (c, saved) := Urbits.Melded(m[p], st.now);
    if !st.execOk then (m, files)
    else (m[p := c], if saved then files[p := Some(Document(c))] else files)
  }

  /** What a meld sweep leaves: the records, the pier files, the piers sent a meld, how many piers it finished. */
  datatype SweepResult = SweepResult(
    urbits: map<string, PierConfig>,
    files: map<string, Option<PierDocument>>,
    sent: seq<string>,
    swept: nat)

  /**
   * One pass of `meld_loop` over `order` (api/groundseg.py:150-160), as a
   * function: a due pier whose lens lookup raises ends the pass; any other
   * due pier takes its `Turn`; a pier not due is passed over.
   */
  function Sweep(m: map<string, PierConfig>, files: map<string, Option<PierDocument>>,
                 order: seq<string>, steps: seq<SweepStep>): (r: SweepResult)
    requires |steps| == |order|
    ensures r.swept <= |order| && r.urbits.Keys == m.Keys
    decreases |order|
  {
    if order == [] then SweepResult(m, files, [], 0)
    else
      var p, st := order[0], steps[0];
      if DueIn(m, p, st.now) && st.raises then SweepResult(m, files, [], 0)
      else
        var next := if DueIn(m, p, st.now) then Turn(m, files, p, st) else (m, files);
        var rest := Sweep(next.0, next.1, order[1..], steps[1..]);
        SweepResult(rest.urbits, rest.files, (if DueIn(m, p, st.now) then [p] else []) + rest.sent, rest.swept + 1)
  }

  /** `r` after `done` more piers were swept ahead of it, sending a meld to `sent`. */
  function Behind(sent: seq<string>, done: nat, r: SweepResult): SweepResult
  {
    SweepResult(r.urbits, r.files, sent + r.sent, done + r.swept)
  }

  /**
   * The turn of a due pier whose lens lookup does not raise
   * (api/groundseg.py:157-158): look up its lens address and send the meld.
   */
  method MeldTurn(u: Urbits.Urbit, p: string, st: SweepStep)
    requires p in u.urbits
    modifies u`urbits, u`files
    ensures (u.urbits, u.files) == Turn(old(u.urbits), old(u.files), p, st)
  {
    var lens := u.GetLoopbackAddr(st.logs);
    var _ := u.SendMeld(p, lens, st.execOk, st.now);
  }

  /**
   * One pass of `meld_loop` (api/groundseg.py:147-162) over the pier names
   * in `order`: each due pier gets its lens address looked up and a meld
   * sent; the first exception ends the pass. `swept` is how many piers the
   * pass finished; `sent` the piers it sent a meld to.
   */
  method MeldSweep(u: Urbits.Urbit, order: seq<string>, steps: seq<SweepStep>)
    returns (swept: nat, sent: seq<string>)
    requires |steps| == |order|
    modifies u`urbits, u`files
    ensures SweepResult(u.urbits, u.files, sent, swept) == Sweep(old(u.urbits), old(u.files), order, steps)
  {
    ghost var total := Sweep(u.urbits, u.files, order, steps);
    sent := [];
    var i := 0;
    while i < |order|
      invariant 0 <= i <= |order|
      invariant total == Behind(sent, i, Sweep(u.urbits, u.files, order[i..], steps[i..]))
    {
      var p, st := order[i], steps[i];
      assert order[i..][1..] == order[i + 1..] && steps[i..][1..] == steps[i + 1..];
      if p in u.urbits && Urbits.DueForMeld(u.urbits[p], st.now) {
        if st.raises {
          return i, sent;
        }
        MeldTurn(u, p, st);
        assert sent + ([p] + Sweep(u.urbits, u.files, order[i + 1..], steps[i + 1..]).sent)
            == (sent + [p]) + Sweep(u.urbits, u.files, order[i + 1..], steps[i + 1..]).sent;
        sent := sent + [p];
      } else {
        assert [] + Sweep(u.urbits, u.files, order[i + 1..], steps[i + 1..]).sent
            == Sweep(u.urbits, u.files, order[i + 1..], steps[i + 1..]).sent;
      }
      i := i + 1;
    }
    assert sent + [] == sent;
    return i, sent;
  }

  /**
   * api/groundseg.py:159-160: with distinct names (the keys of a dict) the
   * pass breaks off at the first pier that was due when the pass began and
   * whose lens lookup raised, and finishes every pier before it.
   */
  lemma {:induction false} SweepStops(m: map<string, PierConfig>, files: map<string, Option<PierDocument>>,
                                      order: seq<string>, steps: seq<SweepStep>)
    requires |steps| == |order| && Distinct(order)
    ensures var k := Sweep(m, files, order, steps).swept;
      && (forall j :: 0 <= j < k ==> !(DueIn(m, order[j], steps[j].now) && steps[j].raises))
      && (k < |order| ==> DueIn(m, order[k], steps[k].now) && steps[k].raises)
    decreases |order|
  {
    if order != [] {
      var p, st := order[0], steps[0];
      if !(DueIn(m, p, st.now) && st.raises) {
        var next := if DueIn(m, p, st.now) then Turn(m, files, p, st) else (m, files);
        assert Distinct(order[1..]);
        SweepStops(next.0, next.1, order[1..], steps[1..]);
        var k := Sweep(m, files, order, steps).swept;
        forall j | 1 <= j < |order|
          ensures DueIn(next.0, order[j], steps[j].now) == DueIn(m, order[j], steps[j].now)
        {
          assert order[j] != p;
        }
        forall j | 0 <= j < k
          ensures !(DueIn(m, order[j], steps[j].now) && steps[j].raises)
        {
          if j > 0 {
            assert order[1..][j - 1] == order[j] && steps[1..][j - 1] == steps[j];
          }
        }
        if k < |order| {
          assert order[1..][k - 1] == order[k] && steps[1..][k - 1] == steps[k];
        }
      }
    }
  }

  /**
   * api/groundseg.py:155-158: with distinct names a pass sends a meld
   * exactly to the piers it finished whose `meld_schedule` was on and whose
   * `meld_next` was not after the clock of their turn.
   */
  lemma {:induction false} SweepSendsDue(m: map<string, PierConfig>, files: map<string, Option<PierDocument>>,
                                         order: seq<string>, steps: seq<SweepStep>, q: string)
    requires |steps| == |order| && Distinct(order)
    ensures var r := Sweep(m, files, order, steps);
      q in r.sent <==> exists j :: 0 <= j < r.swept && order[j] == q && DueIn(m, q, steps[j].now)
    decreases |order|
  {
    if order != [] {
      var p, st := order[0], steps[0];
      if !(DueIn(m, p, st.now) && st.raises) {
        var next := if DueIn(m, p, st.now) then Turn(m, files, p, st) else (m, files);
        assert Distinct(order[1..]);
        SweepSendsDue(next.0, next.1, order[1..], steps[1..], q);
        var r := Sweep(m, files, order, steps);
        var rest := Sweep(next.0, next.1, order[1..], steps[1..]);
        if q in r.sent {
          if q in rest.sent {
            var j :| 0 <= j < rest.swept && order[1..][j] == q && DueIn(next.0, q, steps[1..][j].now);
            assert order[j + 1] == q && q != p;
          } else {
            assert q == p;
          }
        }
        if exists j :: 0 <= j < r.swept && order[j] == q && DueIn(m, q, steps[j].now) {
          var j :| 0 <= j < r.swept && order[j] == q && DueIn(m, q, steps[j].now);
          if j > 0 {
            assert order[1..][j - 1] == q && steps[1..][j - 1] == steps[j] && q != p;
          }
        }
      }
    }
  }

  /**
   * With distinct names each pier's record after a pass depends only on its
   * own turn: melded exactly when the pass finished its turn, it was due at
   * that turn's clock and the lens command succeeded; untouched otherwise.
   */
  lemma {:induction false} SweepRecords(m: map<string, PierConfig>, files: map<string, Option<PierDocument>>,
                                        order: seq<string>, steps: seq<SweepStep>, q: string)
    requires |steps| == |order| && Distinct(order) && q in m
    ensures var r := Sweep(m, files, order, steps);
      && ((forall j :: 0 <= j < r.swept ==> order[j] != q) ==> r.urbits[q] == m[q])
      && (forall j :: 0 <= j < r.swept && order[j] == q ==>
            r.urbits[q] == if Urbits.DueForMeld(m[q], steps[j].now) && steps[j].execOk
                           then Urbits.Melded(m[q], steps[j].now).0 else m[q])
    decreases |order|
  {
    if order != [] {
      var p, st := order[0], steps[0];
      if !(DueIn(m, p, st.now) && st.raises) {
        var next := if DueIn(m, p, st.now) then Turn(m, files, p, st) else (m, files);
        assert Distinct(order[1..]);
        SweepRecords(next.0, next.1, order[1..], steps[1..], q);
        var r := Sweep(m, files, order, steps);
        var rest := Sweep(next.0, next.1, order[1..], steps[1..]);
        assert r.swept == rest.swept + 1;
        if q == p {
          assert forall j :: 0 <= j < rest.swept ==> order[1..][j] != q;
        } else {
          forall j | 0 <= j < r.swept && order[j] == q
            ensures r.urbits[q] == if Urbits.DueForMeld(m[q], steps[j].now) && steps[j].execOk
                                   then Urbits.Melded(m[q], steps[j].now).0 else m[q]
          {
            assert j > 0 && order[1..][j - 1] == q && steps[1..][j - 1] == steps[j];
          }
          if forall j :: 0 <= j < r.swept ==> order[j] != q {
            forall j | 0 <= j < rest.swept
              ensures order[1..][j] != q
            {
              assert order[1..][j] == order[j + 1];
            }
          }
        }
      }
    }
  }

  /**
   * A pier the sweep melded successfully with a frequency of at least a
   * day is no longer due at the clock of its turn, so the next pass leaves
   * it alone until its new `meld_next`.
   */
  lemma MeldedNotDueAgain(c: PierConfig, now: int)
    requires Urbits.DueForMeld(c, now) && Urbits.Melded(c, now).1 && c.meldFrequency >= 1
    ensures !Urbits.DueForMeld(Urbits.Melded(c, now).0, now)
  {
    Urbits.MeldedSchedule(c, now);
  }
}
