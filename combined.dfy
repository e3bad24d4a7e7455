/**
 * The all-in-one tracker (combined.py): a Flask server that records the active
 * tab's domain, and a capture loop that charges the time of every frame to the
 * domain current at that frame, counts frames with eyes as focus, and at the
 * end of the session splits the tracked time into productive and unproductive.
 */
module Combined {
  import opened Wrappers
  import opened Domains
  import opened Gaze
  import opened Productivity
  import EyesMain

  /** `domain_times.get(d, 0)`. */
  function TimeOf(times: map<string, real>, d: string): real
  {
    if d in times then times[d] else 0.0
  }

  /**
   * `track_url`'s `if domain not in domain_times: domain_times[domain] = 0.0`:
   * the domain gets a timer, and no existing time is reset.
   */
  function OpenTimer(times: map<string, real>, domain: string): (t: map<string, real>)
    ensures t.Keys == times.Keys + {domain}
    ensures forall d :: d in times ==> t[d] == times[d]
    ensures domain !in times ==> t[domain] == 0.0
    ensures forall d :: TimeOf(t, d) == TimeOf(times, d)
  {
    if domain in times then times else times[domain := 0.0]
  }

  /** The loop's charge of `delta` seconds to `domain`, creating its entry at 0 if missing. */
  function Charge(times: map<string, real>, domain: string, delta: real): (t: map<string, real>)
    ensures t.Keys == times.Keys + {domain}
    ensures TimeOf(t, domain) == TimeOf(times, domain) + delta
    ensures forall d :: d != domain ==> TimeOf(t, d) == TimeOf(times, d)
  {
    times[domain := TimeOf(times, domain) + delta]
  }

  /**
   * One pass of the capture loop: the detector output, the clock reading
   * taken for the on-screen percentage (`elapsed_time`), the reading taken
   * for the domain charge (`now`), and the value of `current_domain` the
   * loop reads, which the server thread may have changed since the last
   * frame.
   */
  datatype Frame = Frame(faces: seq<Face>, shown: real, now: real, domain: string)

  /** `last_time` after the given frames. */
  function LastNow(start: real, frames: seq<Frame>): real
  {
    if frames == [] then start else frames[|frames| - 1].now
  }

  /** Every eye centre of the given frames, in append order. */
  function FrameTrail(frames: seq<Frame>): seq<Point>
  {
    if frames == [] then [] else FrameTrail(frames[..|frames| - 1]) + Centres(frames[|frames| - 1].faces)
  }

  /** Number of frames in which some face has an eye. */
  function EyeFrames(frames: seq<Frame>): (n: nat)
    ensures n <= |frames|
  {
    if frames == [] then 0
    else EyeFrames(frames[..|frames| - 1]) + if AnyEyes(frames[|frames| - 1].faces) then 1 else 0
  }

  /** The domains the loop charged. */
  function Charged(frames: seq<Frame>): set<string>
  {
    if frames == [] then {} else Charged(frames[..|frames| - 1]) + {frames[|frames| - 1].domain}
  }

  /** `domain_times` after the loop has run over the given frames: exactly the charged domains gain entries. */
  function ChargeAll(times: map<string, real>, start: real, frames: seq<Frame>): (t: map<string, real>)
    ensures t.Keys == times.Keys + Charged(frames)
  {
    if frames == [] then times
    else
      var prefix := frames[..|frames| - 1];
      var f := frames[|frames| - 1];
      Charge(ChargeAll(times, start, prefix), f.domain, f.now - LastNow(start, prefix))
  }

  /** The sum of the deltas of the frames in which `d` was current. */
  function Spent(start: real, frames: seq<Frame>, d: string): real
  {
    if frames == [] then 0.0
    else
      var prefix := frames[..|frames| - 1];
      var f := frames[|frames| - 1];
      Spent(start, prefix, d) + if f.domain == d then f.now - LastNow(start, prefix) else 0.0
  }

  /**
   * Per-domain accounting: the loop adds to each domain's time exactly the
   * deltas of the frames in which it was current.
   */
  lemma {:induction false} ChargeAllSpent(times: map<string, real>, start: real, frames: seq<Frame>, d: string)
    ensures TimeOf(ChargeAll(times, start, frames), d) == TimeOf(times, d) + Spent(start, frames, d)
  {
    if frames != [] {
      ChargeAllSpent(times, start, frames[..|frames| - 1], d);
    }
  }

  /** `time.time()` never goes below `start_time` and never goes back. */
  predicate ClockMonotone(start: real, frames: seq<Frame>) {
    && (forall i :: 0 <= i < |frames| ==> start <= frames[i].now)
    && (forall i, j :: 0 <= i < j < |frames| ==> frames[i].now <= frames[j].now)
  }

  /** With a monotone clock, no domain is charged more than the session took. */
  lemma {:induction false} SpentWithinSession(start: real, frames: seq<Frame>, d: string)
    requires ClockMonotone(start, frames)
    ensures 0.0 <= Spent(start, frames, d) <= LastNow(start, frames) - start
  {
    if frames != [] {
      var prefix := frames[..|frames| - 1];
      assert ClockMonotone(start, prefix);
      SpentWithinSession(start, prefix, d);
      assert LastNow(start, prefix) <= frames[|frames| - 1].now;
    }
  }

  /** The total of the listed domains' times, a missing one counting as 0. */
  function TotalTime(times: map<string, real>, domains: seq<string>): (total: real)
    ensures (forall d :: d in times ==> times[d] >= 0.0) ==> total >= 0.0
  {
    if domains == [] then 0.0
    else TotalTime(times, domains[..|domains| - 1]) + TimeOf(times, domains[|domains| - 1])
  }

  /** The part of that total whose domains the analyzer labels "unproductive". */
  function UnproductiveTime(enabled: bool, env: Environment, answer: string -> Reply, times: map<string, real>, domains: seq<string>): (part: real)
    ensures (forall d :: d in times ==> times[d] >= 0.0) ==> part >= 0.0
  {
    if domains == [] then 0.0
    else
      var last := domains[|domains| - 1];
      UnproductiveTime(enabled, env, answer, times, domains[..|domains| - 1])
        + if Decide(enabled, env, answer(last)) == Unproductive then TimeOf(times, last) else 0.0
  }

  /** With no negative time, the unproductive part is at least 0 and at most the total. */
  lemma {:induction false} UnproductiveWithinTotal(enabled: bool, env: Environment, answer: string -> Reply, times: map<string, real>, domains: seq<string>)
    requires forall d :: d in times ==> times[d] >= 0.0
    ensures 0.0 <= UnproductiveTime(enabled, env, answer, times, domains) <= TotalTime(times, domains)
  {
    if domains != [] {
      UnproductiveWithinTotal(enabled, env, answer, times, domains[..|domains| - 1]);
    }
  }

  /** When set-up fails on a disabled analyzer, all tracked time counts as productive. */
  lemma {:induction false} NoUnproductiveWithoutSetup(env: Environment, answer: string -> Reply, times: map<string, real>, domains: seq<string>)
    requires !SetupSucceeds(env)
    ensures UnproductiveTime(false, env, answer, times, domains) == 0.0
  {
    if domains != [] {
      NoUnproductiveWithoutSetup(env, answer, times, domains[..|domains| - 1]);
    }
  }

  lemma TallySnoc(enabled: bool, env: Environment, answer: string -> Reply, times: map<string, real>, domains: seq<string>, i: nat)
    requires i < |domains|
    ensures TotalTime(times, domains[..i + 1]) == TotalTime(times, domains[..i]) + TimeOf(times, domains[i])
    ensures UnproductiveTime(enabled, env, answer, times, domains[..i + 1])
      == UnproductiveTime(enabled, env, answer, times, domains[..i])
         + if Decide(enabled, env, answer(domains[i])) == Unproductive then TimeOf(times, domains[i]) else 0.0
  {
    assert domains[..i + 1][..i] == domains[..i];
  }

  /** `productivity[verdict] += duration` on the two-label buckets. */
  function AddTime(buckets: map<string, real>, verdict: string, duration: real): (r: map<string, real>)
    requires buckets.Keys == {Productive, Unproductive}
    requires verdict == Productive || verdict == Unproductive
    ensures r.Keys == {Productive, Unproductive}
    ensures r[Productive] + r[Unproductive] == buckets[Productive] + buckets[Unproductive] + duration
    ensures r[Unproductive] == buckets[Unproductive] + if verdict == Unproductive then duration else 0.0
  {
    buckets[verdict := buckets[verdict] + duration]
  }

  /** The loop state after a run of frames, as the `finally` block sees it. */
  datatype Summary = Summary(positions: seq<Point>, elapsed: real, focusTime: real, percentage: real, productivity: map<string, real>)

  /**
   * How `run_eye_tracker` ends: an early return, the `finally` block failing
   * on the unbound `elapsed_time` when no frame was processed, or the summary.
   */
  datatype Outcome = CameraUnavailable | NoInitialFrame | SummaryUnbound | Finished(summary: Summary)

  /** The module's globals, shared by the Flask routes and the capture loop. */
  class Session {
    var currentUrl: string
    var currentDomain: string
    var history: History
    var times: map<string, real>
    const analyzer: Analyzer

    constructor ()
      ensures currentUrl == "unknown" && currentDomain == "unknown"
      ensures history == map[] && times == map[]
      ensures fresh(analyzer) && !analyzer.enabled
    {
      currentUrl := "unknown";
      currentDomain := "unknown";
      history := map[];
      times := map[];
      analyzer := new Analyzer();
    }

    /**
     * `track_url`: refuses a missing or empty body with 400 and changes
     * nothing; otherwise records the visit and gives the domain a timer.
     */
    method TrackUrl(body: Body, netloc: string -> string, now: real) returns (reply: TrackReply)
      modifies this
      ensures !HasData(body) ==> reply == NoDataReply && unchanged(this)
      ensures HasData(body) ==>
        && reply == Accepted
        && currentUrl == UrlOf(body.fields)
        && currentDomain == DomainRoot(netloc(currentUrl))
        && history == Record(old(history), currentDomain, now)
        && times == OpenTimer(old(times), currentDomain)
    {
      if !HasData(body) {
        return NoDataReply;
      }
      var url := UrlOf(body.fields);
      var domain := DomainRoot(netloc(url));
      currentUrl := url;
      currentDomain := domain;
      if domain in history {
        var v := history[domain];
        history := history[domain := Visit(v.firstSeen, now, v.count + 1)];
      } else {
        history := history[domain := Visit(now, now, 1)];
      }
      if domain !in times {
        times := times[domain := 0.0];
      }
      reply := Accepted;
    }

    /** `get_status`. */
    method GetStatus() returns (status: string, domain: string)
      ensures status == "running" && domain == currentDomain
    {
      status, domain := "running", currentDomain;
    }

    /** `get_domains`, with `stamp` standing for `strftime('%Y-%m-%d %H:%M:%S')`. */
    method GetDomains(stamp: real -> string) returns (out: map<string, VisitView>)
      ensures out.Keys == history.Keys
      ensures forall d :: d in history ==> out[d] == View(history[d], stamp)
    {
      out := Project(history, stamp);
    }

    /** The end of one loop pass: `domain_times[current_domain] += delta`. */
    method ChargeTime(domain: string, delta: real)
      modifies this
      ensures times == Charge(old(times), domain, delta)
      ensures currentUrl == old(currentUrl) && currentDomain == old(currentDomain) && history == old(history)
    {
      if domain !in times {
        times := times[domain := 0.0];
      }
      times := times[domain := times[domain] + delta];
    }

    /**
     * The `while True` loop over the frames read before the read failed, 'q'
     * was pressed or the session was interrupted. `elapsed` is None when no
     * frame was processed, since `elapsed_time` is only bound inside the loop.
     */
    method Capture(start: real, frames: seq<Frame>) returns (positions: seq<Point>, focusTime: real, elapsed: Option<real>, percentage: Option<real>)
      modifies this
      ensures positions == Window(FrameTrail(frames))
      ensures focusTime == EyeFrames(frames) as real / 30.0
      ensures times == ChargeAll(old(times), start, frames)
      ensures frames == [] ==> elapsed.None? && percentage.None?
      ensures frames != [] ==>
        && elapsed == Some(frames[|frames| - 1].shown - start)
        && percentage == Some(EyesMain.FocusScore(focusTime, elapsed.value))
      ensures currentUrl == old(currentUrl) && currentDomain == old(currentDomain) && history == old(history)
    {
      positions, focusTime, elapsed, percentage := [], 0.0, None, None;
      var lastTime := start;
      for i := 0 to |frames|
        invariant positions == Window(FrameTrail(frames[..i]))
        invariant focusTime == EyeFrames(frames[..i]) as real / 30.0
        invariant lastTime == LastNow(start, frames[..i])
        invariant times == ChargeAll(old(times), start, frames[..i])
        invariant i == 0 ==> elapsed.None? && percentage.None?
        invariant i > 0 ==>
          && elapsed == Some(frames[i - 1].shown - start)
          && percentage == Some(EyesMain.FocusScore(focusTime, elapsed.value))
        invariant currentUrl == old(currentUrl) && currentDomain == old(currentDomain) && history == old(history)
      {
        var e, p;
        positions, focusTime, lastTime, e, p := CaptureFrame(old(times), start, frames, i, positions, focusTime, lastTime);
        elapsed, percentage := Some(e), Some(p);
      }
      assert frames[..|frames|] == frames;
    }

    /** One pass of the capture loop, the `i`-th frame. */
    method CaptureFrame(ghost times0: map<string, real>, start: real, frames: seq<Frame>, i: nat,
                        positions: seq<Point>, focusTime: real, lastTime: real)
      returns (positions': seq<Point>, focusTime': real, lastTime': real, elapsed: real, percentage: real)
      requires i < |frames|
      requires positions == Window(FrameTrail(frames[..i]))
      requires focusTime == EyeFrames(frames[..i]) as real / 30.0
      requires lastTime == LastNow(start, frames[..i])
      requires times == ChargeAll(times0, start, frames[..i])
      modifies this
      ensures positions' == Window(FrameTrail(frames[..i + 1]))
      ensures focusTime' == EyeFrames(frames[..i + 1]) as real / 30.0
      ensures lastTime' == LastNow(start, frames[..i + 1])
      ensures times == ChargeAll(times0, start, frames[..i + 1])
      ensures elapsed == frames[i].shown - start && percentage == EyesMain.FocusScore(focusTime', elapsed)
      ensures currentUrl == old(currentUrl) && currentDomain == old(currentDomain) && history == old(history)
    {
      var f := frames[i];
      FrameSnoc(times0, start, frames, i);
      WindowAppend(FrameTrail(frames[..i]), Centres(f.faces));
      var eyesDetected;
      positions', eyesDetected := RecordEyes(f.faces, positions);
      focusTime' := focusTime;
      if eyesDetected {
        focusTime' := focusTime + 1.0 / 30.0;
      }
      elapsed := f.shown - start;
      percentage := EyesMain.FocusScore(focusTime', elapsed);
      var delta := f.now - lastTime;
      lastTime' := f.now;
      ChargeTime(f.domain, delta);
    }

    /**
     * The tally in the `finally` block: every domain of the fetched history
     * is labelled and its time (0 when it has none) is added to its label's
     * bucket. `domains` is empty when fetching the history failed.
     */
    method TallyProductivity(domains: seq<string>, env: Environment, answer: string -> Reply) returns (productivity: map<string, real>)
      modifies analyzer
      ensures productivity.Keys == {Productive, Unproductive}
      ensures productivity[Productive] + productivity[Unproductive] == TotalTime(times, domains)
      ensures productivity[Unproductive] == UnproductiveTime(old(analyzer.enabled), env, answer, times, domains)
      ensures analyzer.enabled == (old(analyzer.enabled) || (|domains| > 0 && SetupSucceeds(env)))
    {
      ghost var enabled0 := analyzer.enabled;
      productivity := map[Productive := 0.0, Unproductive := 0.0];
      for i := 0 to |domains|
        invariant productivity.Keys == {Productive, Unproductive}
        invariant productivity[Productive] + productivity[Unproductive] == TotalTime(times, domains[..i])
        invariant productivity[Unproductive] == UnproductiveTime(enabled0, env, answer, times, domains[..i])
        invariant analyzer.enabled == (enabled0 || (i > 0 && SetupSucceeds(env)))
      {
        productivity := TallyDomain(enabled0, domains, i, env, answer, productivity);
      }
      assert domains[..|domains|] == domains;
    }

    /** One pass of the tally: label the `i`-th domain and add its time to the label's bucket. */
    method TallyDomain(ghost enabled0: bool, domains: seq<string>, i: nat, env: Environment, answer: string -> Reply,
                       productivity: map<string, real>)
      returns (productivity': map<string, real>)
      requires i < |domains|
      requires productivity.Keys == {Productive, Unproductive}
      requires productivity[Productive] + productivity[Unproductive] == TotalTime(times, domains[..i])
      requires productivity[Unproductive] == UnproductiveTime(enabled0, env, answer, times, domains[..i])
      requires analyzer.enabled == (enabled0 || (i > 0 && SetupSucceeds(env)))
      modifies analyzer
      ensures productivity'.Keys == {Productive, Unproductive}
      ensures productivity'[Productive] + productivity'[Unproductive] == TotalTime(times, domains[..i + 1])
      ensures productivity'[Unproductive] == UnproductiveTime(enabled0, env, answer, times, domains[..i + 1])
      ensures analyzer.enabled == (enabled0 || SetupSucceeds(env))
    {
      ghost var before := analyzer.enabled;
      var verdict, _ := analyzer.Analyze(domains[i], env, answer);
      DecideFromStart(enabled0, before, env, answer(domains[i]));
      var duration := TimeOf(times, domains[i]);
      TallySnoc(enabled0, env, answer, times, domains, i);
      productivity' := AddTime(productivity, verdict, duration);
    }

    /**
     * `run_eye_tracker`. `start` is `start_time`, taken after the initial
     * frame; `fetched` is the domain list of `GET /domains`, None when the
     * request failed.
     */
    method RunEyeTracker(cameraOpens: bool, initialFrameRead: bool, start: real, frames: seq<Frame>,
                         fetched: Option<seq<string>>, env: Environment, answer: string -> Reply)
      returns (outcome: Outcome)
      modifies this, analyzer
      ensures !cameraOpens ==> outcome == CameraUnavailable
      ensures cameraOpens && !initialFrameRead ==> outcome == NoInitialFrame
      ensures cameraOpens && initialFrameRead && frames == [] ==> outcome == SummaryUnbound
      ensures cameraOpens && initialFrameRead && frames != [] ==> outcome.Finished?
      ensures !(cameraOpens && initialFrameRead) ==> times == old(times) && analyzer.enabled == old(analyzer.enabled)
      ensures outcome == SummaryUnbound ==> analyzer.enabled == old(analyzer.enabled)
      ensures outcome.Finished? ==>
        analyzer.enabled == (old(analyzer.enabled) || (|Fetched(fetched)| > 0 && SetupSucceeds(env)))
      ensures cameraOpens && initialFrameRead ==> times == ChargeAll(old(times), start, frames)
      ensures outcome.Finished? ==>
        var s := outcome.summary;
        && frames != []
        && s.positions == Window(FrameTrail(frames))
        && s.elapsed == frames[|frames| - 1].shown - start
        && s.focusTime == EyeFrames(frames) as real / 30.0
        && s.percentage == EyesMain.FocusScore(s.focusTime, s.elapsed)
        && s.productivity.Keys == {Productive, Unproductive}
        && s.productivity[Productive] + s.productivity[Unproductive] == TotalTime(times, Fetched(fetched))
        && s.productivity[Unproductive] == UnproductiveTime(old(analyzer.enabled), env, answer, times, Fetched(fetched))
      ensures currentUrl == old(currentUrl) && currentDomain == old(currentDomain) && history == old(history)
    {
      if !cameraOpens {
        return CameraUnavailable;
      }
      if !initialFrameRead {
        return NoInitialFrame;
      }
      var positions, focusTime, elapsed, percentage := Capture(start, frames);
      if elapsed.None? {
        return SummaryUnbound;
      }
      var productivity := TallyProductivity(Fetched(fetched), env, answer);
      outcome := Finished(Summary(positions, elapsed.value, focusTime, percentage.value, productivity));
    }
  }

  lemma FrameSnoc(times: map<string, real>, start: real, frames: seq<Frame>, i: nat)
    requires i < |frames|
    ensures FrameTrail(frames[..i + 1]) == FrameTrail(frames[..i]) + Centres(frames[i].faces)
    ensures EyeFrames(frames[..i + 1]) == EyeFrames(frames[..i]) + if AnyEyes(frames[i].faces) then 1 else 0
    ensures LastNow(start, frames[..i + 1]) == frames[i].now
    ensures ChargeAll(times, start, frames[..i + 1]) == Charge(ChargeAll(times, start, frames[..i]), frames[i].domain, frames[i].now - LastNow(start, frames[..i]))
  {
    assert frames[..i + 1][..i] == frames[..i];
  }
}
