/** The daemon itself: `set_qbt_limits`, `process_plex_sessions`, one pass of
    the polling loop, a finite run of passes, and the start-up configuration
    check. Each method is proved against a function on the client's state;
    the lemmas state what the daemon promises about those functions. */
module Limiter {
  import opened Wrappers
  import opened Xml
  import opened Limits
  import opened Sessions
  import opened QbtClient

  /** Which of the two setter calls would raise if it were made. */
  datatype Faults = Faults(uploadFails: bool, downloadFails: bool)

  const NoFaults: Faults := Faults(false, false)

  /** The branch `set_qbt_limits` logs: both limits set (each either a cap or
      "removed"), or the swallowed exception. */
  datatype SetResult = LimitsSet(uploadLimited: bool, downloadLimited: bool) | SetFailed

  /** What one pass of the loop did. `Crashed` is an exception that escapes
      the loop and ends the process. */
  datatype Outcome =
    | Skipped
    | Crashed(lines: seq<string>)
    | Applied(streaming: bool, lines: seq<string>, result: SetResult)

  // ---------------------------------------------------------------------
  // set_qbt_limits

  /** The client after `set_qbt_limits(client, upload, download)`. */
  function SetLimitsEffect(s: ClientState, upload: int, download: int, f: Faults): (t: ClientState)
    ensures s.calls <= t.calls && |s.calls| < |t.calls| && t.calls[|s.calls|] == SetUploadLimit(upload)
    ensures f.uploadFails ==> t == s.(calls := s.calls + [SetUploadLimit(upload)])
    ensures !f.uploadFails ==>
      t.upload == upload && t.calls == s.calls + [SetUploadLimit(upload), SetDownloadLimit(download)]
    ensures t.download == (if f.uploadFails || f.downloadFails then s.download else download)
  {
    var afterUpload := s.(calls := s.calls + [SetUploadLimit(upload)]);
    if f.uploadFails then afterUpload
    else
      var afterDownload := afterUpload.(upload := upload, calls := afterUpload.calls + [SetDownloadLimit(download)]);
      if f.downloadFails then afterDownload else afterDownload.(download := download)
  }

  function SetLimitsResult(upload: int, download: int, f: Faults): SetResult
  {
    if f.uploadFails || f.downloadFails then SetFailed
    else LimitsSet(upload != NoLimit, download != NoLimit)
  }

  /** `set_qbt_limits`: upload first, then download; the first exception
      skips the rest and is swallowed. */
  method SetQbtLimits(client: Client, upload: int, download: int, f: Faults) returns (result: SetResult)
    modifies client
    ensures client.State() == SetLimitsEffect(old(client.State()), upload, download, f)
    ensures result == SetLimitsResult(upload, download, f)
  {
    var ok := client.TransferSetUploadLimit(upload, f.uploadFails);
    if !ok {
      return SetFailed;
    }
    ok := client.TransferSetDownloadLimit(download, f.downloadFails);
    if !ok {
      return SetFailed;
    }
    result := LimitsSet(upload != NoLimit, download != NoLimit);
  }

  // ---------------------------------------------------------------------
  // process_plex_sessions

  /** The client and the outcome after `process_plex_sessions(root, ...)`. */
  function ProcessEffect(s: ClientState, root: Element, caps: Policy, f: Faults): (ClientState, Outcome)
  {
    var p := PolicyFor(root, caps);
    if IsStreaming(root) then
      var rep := Report(Attempts(FindAll(root.children, "Video")));
      if rep.crashed then (s, Crashed(rep.lines))
      else (SetLimitsEffect(s, p.upload, p.download, f), Applied(true, rep.lines, SetLimitsResult(p.upload, p.download, f)))
    else
      (SetLimitsEffect(s, p.upload, p.download, f), Applied(false, [], SetLimitsResult(p.upload, p.download, f)))
  }

  method ProcessPlexSessions(root: Element, client: Client, upload: int, download: int, f: Faults)
    returns (outcome: Outcome)
    modifies client
    ensures (client.State(), outcome) == ProcessEffect(old(client.State()), root, Policy(upload, download), f)
  {
    var size := GetOr(root.attrib, "size", "0");
    if size != "0" {
      var sessions := FindAll(root.children, "Video");
      var lines, crashed := LogSessions(sessions);
      if crashed {
        return Crashed(lines);
      }
      var result := SetQbtLimits(client, upload, download, f);
      outcome := Applied(true, lines, result);
    } else {
      var result := SetQbtLimits(client, NoLimit, NoLimit, f);
      outcome := Applied(false, [], result);
    }
  }

  /** The `for session in sessions` loop: builds and logs each line in turn
      and stops at the first session whose line raises. */
  method LogSessions(sessions: seq<Element>) returns (lines: seq<string>, crashed: bool)
    ensures Report(Attempts(sessions)) == SessionReport(lines, crashed)
  {
    ghost var attempts := Attempts(sessions);
    lines := [];
    var i := 0;
    while i < |sessions|
      invariant i <= |sessions| && |lines| == i
      invariant LinesMatch(attempts, lines)
    {
      var line := BuildLine(sessions[i]);
      assert attempts[i] == line;
      if line.None? {
        ReportStopsAtFirstFailure(attempts, lines);
        return lines, true;
      }
      LinesMatchExtend(attempts, lines, line.value);
      lines := lines + [line.value];
      i := i + 1;
    }
    ReportStopsAtFirstFailure(attempts, lines);
    crashed := false;
  }

  /** The first lines built are `lines`. */
  ghost predicate LinesMatch(attempts: seq<Option<string>>, lines: seq<string>)
  {
    |lines| <= |attempts| && forall j :: 0 <= j < |lines| ==> attempts[j] == Some(lines[j])
  }

  lemma LinesMatchExtend(attempts: seq<Option<string>>, lines: seq<string>, line: string)
    requires LinesMatch(attempts, lines) && |lines| < |attempts| && attempts[|lines|] == Some(line)
    ensures LinesMatch(attempts, lines + [line])
  {
  }

  /** The body of that loop for one session: the first `User` child's
      `title` (None where the lookup raises), then the attributes, then the
      line in one of its two shapes. */
  method BuildLine(session: Element) returns (line: Option<string>)
    ensures line == ReportLine(session)
  {
    var user := Find(session.children, "User");
    if user.None? || "title" !in user.value.attrib {
      return None;
    }
    var attributes := session.attrib;
    var library := Get(attributes, "librarySectionTitle");
    var grandparentTitle := Get(attributes, "grandparentTitle");
    var parentTitle := Get(attributes, "parentTitle");
    var title := Get(attributes, "title");
    var prefix := "User: " + user.value.attrib["title"] + ", Library: " + Shown(library) + ", Title: ";
    assert UserName(session) == Some(user.value.attrib["title"]);
    if grandparentTitle.Some? && grandparentTitle.value != "" {
      line := Some(prefix + grandparentTitle.value + " - " + Shown(parentTitle) + " - " + Shown(title));
      assert Title(attributes) == grandparentTitle.value + " - " + Shown(parentTitle) + " - " + Shown(title);
      assert line.value == prefix + Title(attributes);
    } else {
      line := Some(prefix + Shown(title));
      assert Title(attributes) == Shown(title);
    }
  }

  /** The report is fixed by its lines: they are the longest run of built lines
      from the start, and it crashed exactly when a failed one follows them. */
  lemma ReportStopsAtFirstFailure(attempts: seq<Option<string>>, lines: seq<string>)
    requires LinesMatch(attempts, lines)
    requires |lines| < |attempts| ==> attempts[|lines|].None?
    ensures Report(attempts) == SessionReport(lines, |lines| < |attempts|)
  {
  }

  // ---------------------------------------------------------------------
  // One pass of the loop: `root = get_plex_sessions(...)`, `if root: ...`

  /** `if root:` holds when the fetch succeeded and the root element has at
      least one child (ElementTree truth value). */
  predicate ShouldProcess(fetched: Option<Element>)
  {
    fetched.Some? && IsTruthy(fetched.value)
  }

  /** The client and the outcome after one pass, given what the fetch returned
      (None for a failed request) and how the setters would behave. */
  function IterationEffect(s: ClientState, fetched: Option<Element>, caps: Policy, f: Faults): (ClientState, Outcome)
  {
    if ShouldProcess(fetched) then ProcessEffect(s, fetched.value, caps, f) else (s, Skipped)
  }

  method Iterate(fetched: Option<Element>, client: Client, upload: int, download: int, f: Faults)
    returns (outcome: Outcome)
    modifies client
    ensures (client.State(), outcome) == IterationEffect(old(client.State()), fetched, Policy(upload, download), f)
  {
    if fetched.Some? && |fetched.value.children| > 0 {
      outcome := ProcessPlexSessions(fetched.value, client, upload, download, f);
    } else {
      outcome := Skipped;
    }
  }

  /** A failed fetch, or a root with no child elements, calls no setter and
      leaves both limits as they were. */
  lemma SkippedPassChangesNothing(s: ClientState, fetched: Option<Element>, caps: Policy, f: Faults)
    requires fetched.None? || fetched.value.children == []
    ensures IterationEffect(s, fetched, caps, f) == (s, Skipped)
  {
  }

  /** A pass that reaches the setters without faults leaves exactly the policy
      behind and makes both calls, even when the client already holds that
      policy: nothing is compared with the previous state. */
  lemma PassAppliesPolicy(s: ClientState, root: Element, caps: Policy)
    requires IsTruthy(root)
    requires IsStreaming(root) ==> !Report(Attempts(FindAll(root.children, "Video"))).crashed
    ensures var t := IterationEffect(s, Some(root), caps, NoFaults).0;
      var p := PolicyFor(root, caps);
      t == ClientState(p.upload, p.download, s.calls + [SetUploadLimit(p.upload), SetDownloadLimit(p.download)])
  {
  }

  /** An upload setter that raises leaves the download limit alone and is
      followed by no download call; the pass still ends normally. */
  lemma UploadFailureSkipsDownload(s: ClientState, root: Element, caps: Policy, downloadFails: bool)
    requires IsTruthy(root)
    requires IsStreaming(root) ==> !Report(Attempts(FindAll(root.children, "Video"))).crashed
    ensures var r := IterationEffect(s, Some(root), caps, Faults(true, downloadFails));
      r.0 == s.(calls := s.calls + [SetUploadLimit(PolicyFor(root, caps).upload)])
      && r.1.Applied? && r.1.result == SetFailed
  {
  }

  // ---------------------------------------------------------------------
  // The pass as evidently intended: `if root is not None:`

  /** One pass that processes every successfully fetched root, children or
      not, so that an idle server's empty session list lifts the caps. */
  function IterationEffectIntended(s: ClientState, fetched: Option<Element>, caps: Policy, f: Faults): (ClientState, Outcome)
  {
    if fetched.Some? then ProcessEffect(s, fetched.value, caps, f) else (s, Skipped)
  }

  method IterateIntended(fetched: Option<Element>, client: Client, upload: int, download: int, f: Faults)
    returns (outcome: Outcome)
    modifies client
    ensures (client.State(), outcome) == IterationEffectIntended(old(client.State()), fetched, Policy(upload, download), f)
  {
    if fetched.Some? {
      outcome := ProcessPlexSessions(fetched.value, client, upload, download, f);
    } else {
      outcome := Skipped;
    }
  }

  /** With the intended guard, every fetched idle snapshot lifts both caps,
      whether or not the root has children. */
  lemma IntendedIdleLiftsCaps(s: ClientState, root: Element, caps: Policy)
    requires !IsStreaming(root)
    ensures var t := IterationEffectIntended(s, Some(root), caps, NoFaults).0;
      t.upload == NoLimit && t.download == NoLimit
  {
  }

  /** The two guards differ only on a fetched root without children. */
  lemma IntendedDiffersOnlyOnEmptyRoots(s: ClientState, fetched: Option<Element>, caps: Policy, f: Faults)
    requires fetched.None? || IsTruthy(fetched.value)
    ensures IterationEffectIntended(s, fetched, caps, f) == IterationEffect(s, fetched, caps, f)
  {
  }

  // ---------------------------------------------------------------------
  // A finite run of the loop

  /** One pass's inputs: what the fetch returned and how the setters behave. */
  datatype Iteration = Iteration(fetched: Option<Element>, faults: Faults)

  /** The client after the passes, and whether an exception ended the process
      (no later pass runs). */
  function RunEffect(s: ClientState, passes: seq<Iteration>, caps: Policy): (ClientState, bool)
    decreases |passes|
  {
    if passes == [] then (s, false)
    else
      var (t, outcome) := IterationEffect(s, passes[0].fetched, caps, passes[0].faults);
      if outcome.Crashed? then (t, true) else RunEffect(t, passes[1..], caps)
  }

  /** `while True:` cut to the given passes; `sleep(30)` is not modelled. */
  method Run(client: Client, upload: int, download: int, passes: seq<Iteration>) returns (crashed: bool)
    modifies client
    ensures (client.State(), crashed) == RunEffect(old(client.State()), passes, Policy(upload, download))
  {
    ghost var caps := Policy(upload, download);
    ghost var goal := RunEffect(client.State(), passes, caps);
    crashed := false;
    var i := 0;
    while i < |passes| && !crashed
      invariant 0 <= i <= |passes|
      invariant !crashed ==> goal == RunEffect(client.State(), passes[i..], caps)
      invariant crashed ==> goal == (client.State(), true)
    {
      assert passes[i..][1..] == passes[i + 1..];
      var outcome := Iterate(passes[i].fetched, client, upload, download, passes[i].faults);
      crashed := outcome.Crashed?;
      i := i + 1;
    }
  }

  /** Passes whose fetch fails (or returns an empty root) change nothing at
      all, however many there are. */
  lemma {:induction false} SkippedPassesChangeNothing(s: ClientState, passes: seq<Iteration>, caps: Policy)
    requires forall i :: 0 <= i < |passes| ==> !ShouldProcess(passes[i].fetched)
    ensures RunEffect(s, passes, caps) == (s, false)
    decreases |passes|
  {
    if passes != [] {
      SkippedPassesChangeNothing(s, passes[1..], caps);
    }
  }

  /** Running some passes and then one more is running the one more from
      where the others left the client. */
  lemma {:induction false} RunThenPass(s: ClientState, passes: seq<Iteration>, last: Iteration, caps: Policy)
    ensures var (t, crashed) := RunEffect(s, passes, caps);
      var (u, outcome) := IterationEffect(t, last.fetched, caps, last.faults);
      RunEffect(s, passes + [last], caps) == if crashed then (t, true) else (u, outcome.Crashed?)
    decreases |passes|
  {
    if passes != [] {
      assert (passes + [last])[1..] == passes[1..] + [last];
      var (t, outcome) := IterationEffect(s, passes[0].fetched, caps, passes[0].faults);
      RunThenPass(t, passes[1..], last, caps);
    }
  }

  /** No hysteresis: after any history that did not crash, a fault-free pass
      that reaches the setters leaves exactly the policy of its own snapshot. */
  lemma LatestPassDecides(s: ClientState, passes: seq<Iteration>, root: Element, caps: Policy)
    requires !RunEffect(s, passes, caps).1
    requires IsTruthy(root)
    requires IsStreaming(root) ==> !Report(Attempts(FindAll(root.children, "Video"))).crashed
    ensures var t := RunEffect(s, passes + [Iteration(Some(root), NoFaults)], caps).0;
      t.upload == PolicyFor(root, caps).upload && t.download == PolicyFor(root, caps).download
  {
    RunThenPass(s, passes, Iteration(Some(root), NoFaults), caps);
    PassAppliesPolicy(RunEffect(s, passes, caps).0, root, caps);
  }

  /** The same applying pass repeated n times calls the setters 2n times:
      the limits are pushed again on every pass. */
  lemma {:induction false} EveryPassReapplies(s: ClientState, root: Element, caps: Policy, n: nat)
    requires IsTruthy(root)
    requires IsStreaming(root) ==> !Report(Attempts(FindAll(root.children, "Video"))).crashed
    ensures var r := RunEffect(s, seq(n, _ => Iteration(Some(root), NoFaults)), caps);
      !r.1 && |r.0.calls| == |s.calls| + 2 * n
    decreases n
  {
    if n > 0 {
      var passes := seq(n, _ => Iteration(Some(root), NoFaults));
      assert passes[1..] == seq(n - 1, _ => Iteration(Some(root), NoFaults));
      PassAppliesPolicy(s, root, caps);
      EveryPassReapplies(IterationEffect(s, Some(root), caps, NoFaults).0, root, caps, n - 1);
    }
  }

  // ---------------------------------------------------------------------
  // main: configuration, then the loop

  /** What `main` reads from the environment before entering the loop. */
  datatype Settings = Settings(plexToken: string, qbtHost: string, qbtUser: string, qbtPass: string, caps: Policy)

  /** A required variable counts as given when it is set and not empty. */
  predicate IsGiven(env: map<string, string>, key: string)
  {
    key in env && env[key] != ""
  }

  /** A cap read from the environment, "0" when unset. */
  function CapSetting(env: map<string, string>, key: string): (bps: int)
    ensures bps == NoLimit || bps > 0
    ensures key !in env ==> bps == NoLimit
  {
    ParseFloatOfZero();
    MbpsToBps(ParseFloat(GetOr(env, key, "0")))
  }

  /** The settings `main` continues with, or None when it logs the missing
      variables and returns before the loop. */
  function Startup(env: map<string, string>): (settings: Option<Settings>)
    ensures settings.Some? <==>
      IsGiven(env, "PLEX_TOKEN") && IsGiven(env, "QBT_HOST") && IsGiven(env, "QBT_USER") && IsGiven(env, "QBT_PASS")
    ensures settings.Some? ==>
      settings.value.caps == Policy(CapSetting(env, "UPLOAD_LIMIT_MBPS"), CapSetting(env, "DOWNLOAD_LIMIT_MBPS"))
    ensures settings.Some? ==> settings.value.qbtHost == env["QBT_HOST"] && settings.value.plexToken == env["PLEX_TOKEN"]
  {
    if IsGiven(env, "PLEX_TOKEN") && IsGiven(env, "QBT_HOST") && IsGiven(env, "QBT_USER") && IsGiven(env, "QBT_PASS") then
      Some(Settings(env["PLEX_TOKEN"], env["QBT_HOST"], env["QBT_USER"], env["QBT_PASS"],
        Policy(CapSetting(env, "UPLOAD_LIMIT_MBPS"), CapSetting(env, "DOWNLOAD_LIMIT_MBPS"))))
    else None
  }

  /** `main` over a finite run: nothing reaches the client when the
      configuration is incomplete. */
  method RunDaemon(env: map<string, string>, client: Client, passes: seq<Iteration>) returns (started: bool, crashed: bool)
    modifies client
    ensures started <==> Startup(env).Some?
    ensures !started ==> client.State() == old(client.State()) && !crashed
    ensures started ==> (client.State(), crashed) == RunEffect(old(client.State()), passes, Startup(env).value.caps)
  {
    var settings := Startup(env);
    if settings.None? {
      return false, false;
    }
    started := true;
    crashed := Run(client, settings.value.caps.upload, settings.value.caps.download, passes);
  }
}
