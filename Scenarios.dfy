/** Concrete runs of the daemon: the configured caps while a film plays, no
    cap when the cap is unset, nothing done when the server cannot be
    reached, and what an idle server's empty session list leads to. */
module Scenarios {
  import opened Wrappers
  import opened Xml
  import opened Limits
  import opened Sessions
  import opened QbtClient
  import opened Limiter

  /** A complete environment with the two caps as given (None: unset). */
  function Env(upload: Option<string>, download: Option<string>): map<string, string>
  {
    var required := map["PLEX_TOKEN" := "token", "QBT_HOST" := "localhost:8080", "QBT_USER" := "admin", "QBT_PASS" := "secret"];
    var withUpload := if upload.Some? then required["UPLOAD_LIMIT_MBPS" := upload.value] else required;
    if download.Some? then withUpload["DOWNLOAD_LIMIT_MBPS" := download.value] else withUpload
  }

  const Film: Element :=
    Element("Video", map["title" := "Film", "librarySectionTitle" := "Movies"],
      [Element("User", map["title" := "alice"], [])])

  /** The session list while one film plays. */
  const OneStream: Element := Element("MediaContainer", map["size" := "1"], [Film])

  /** The session list of an idle server: `<MediaContainer size="0"/>`. */
  const EmptyIdle: Element := Element("MediaContainer", map["size" := "0"], [])

  lemma TwoAndTenMegabytes()
    ensures MbpsToBps(ParseFloat("2")) == 2097152
    ensures MbpsToBps(ParseFloat("10")) == 10485760
  {
    assert NatText(2) == "2";
    ParseFloatOfNatText(2);
    assert NatText(10) == "10";
    ParseFloatOfNatText(10);
  }

  lemma FilmIsWatchedByAlice()
    ensures UserName(Film) == Some("alice")
  {
    assert FindAll(Film.children, "User") == Film.children;
  }

  lemma OneStreamIsReported()
    ensures IsTruthy(OneStream) && IsStreaming(OneStream)
    ensures Report(Attempts(FindAll(OneStream.children, "Video"))) ==
      SessionReport([ReportLine(Film).value], false)
  {
    assert FindAll(OneStream.children, "Video") == [Film];
    FilmIsWatchedByAlice();
    assert Attempts([Film]) == [ReportLine(Film)];
  }

  lemma ConfiguredCaps()
    ensures Startup(Env(Some("2"), Some("10"))) ==
      Some(Settings("token", "localhost:8080", "admin", "secret", Policy(2097152, 10485760)))
    ensures Startup(Env(None, Some("10"))) ==
      Some(Settings("token", "localhost:8080", "admin", "secret", Policy(NoLimit, 10485760)))
  {
    TwoAndTenMegabytes();
    var both := Env(Some("2"), Some("10"));
    assert GetOr(both, "UPLOAD_LIMIT_MBPS", "0") == "2";
    assert GetOr(both, "DOWNLOAD_LIMIT_MBPS", "0") == "10";
    var downloadOnly := Env(None, Some("10"));
    assert "UPLOAD_LIMIT_MBPS" !in downloadOnly;
    assert GetOr(downloadOnly, "DOWNLOAD_LIMIT_MBPS", "0") == "10";
  }

  /** Caps of 2 and 10 MB/s while one film plays reach the client as 2097152
      and 10485760 bytes per second. */
  lemma StreamingAppliesCaps(s: ClientState)
    ensures Startup(Env(Some("2"), Some("10"))).Some?
    ensures var t := IterationEffect(s, Some(OneStream), Startup(Env(Some("2"), Some("10"))).value.caps, NoFaults).0;
      t.upload == 2097152 && t.download == 10485760
  {
    ConfiguredCaps();
    OneStreamIsReported();
    PassAppliesPolicy(s, OneStream, Policy(2097152, 10485760));
  }

  /** An unset upload cap is "0" and so no cap, even while someone streams. */
  lemma UnsetUploadCapIsUnlimited(s: ClientState)
    ensures Startup(Env(None, Some("10"))).Some?
    ensures var t := IterationEffect(s, Some(OneStream), Startup(Env(None, Some("10"))).value.caps, NoFaults).0;
      t.upload == NoLimit && t.download == 10485760
  {
    ConfiguredCaps();
    OneStreamIsReported();
    PassAppliesPolicy(s, OneStream, Policy(NoLimit, 10485760));
  }

  lemma FastIsNotANumber()
    ensures ParseFloat("fast") == None
  {
    assert LeadingDigits("fast") == 0;
  }

  /** Unparsable text for a cap means no cap. */
  lemma UnparsableCapIsUnlimited()
    ensures Startup(Env(Some("fast"), None)).Some?
    ensures Startup(Env(Some("fast"), None)).value.caps == Unlimited
  {
    var env := Env(Some("fast"), None);
    assert GetOr(env, "UPLOAD_LIMIT_MBPS", "0") == "fast";
    FastIsNotANumber();
  }

  /** A request that fails leaves the client exactly as it was. */
  lemma FailedFetchDoesNothing(s: ClientState, caps: Policy, f: Faults)
    ensures IterationEffect(s, None, caps, f) == (s, Skipped)
  {
  }

  /** The idle server's empty session list classifies as idle, yet the pass
      skips it, so the caps stay whatever they were. */
  lemma EmptyIdleContainerKeepsCaps(s: ClientState, caps: Policy, f: Faults)
    ensures PolicyFor(EmptyIdle, caps) == Unlimited
    ensures IterationEffect(s, Some(EmptyIdle), caps, f) == (s, Skipped)
  {
  }

  /** Streaming, then idle: the caps set while streaming are never lifted. */
  lemma StreamingThenIdleKeepsCaps()
    ensures var caps := Policy(2097152, 10485760);
      var t := RunEffect(ClientState(NoLimit, NoLimit, []),
        [Iteration(Some(OneStream), NoFaults), Iteration(Some(EmptyIdle), NoFaults)], caps).0;
      t.upload == 2097152 && t.download == 10485760
  {
    OneStreamIsReported();
    var caps := Policy(2097152, 10485760);
    var passes := [Iteration(Some(OneStream), NoFaults), Iteration(Some(EmptyIdle), NoFaults)];
    var afterStream := IterationEffect(ClientState(NoLimit, NoLimit, []), Some(OneStream), caps, NoFaults).0;
    assert afterStream.upload == 2097152 && afterStream.download == 10485760;
    assert passes[1..] == [Iteration(Some(EmptyIdle), NoFaults)];
    assert passes[1..][1..] == [];
    assert RunEffect(afterStream, passes[1..], caps) == (afterStream, false);
  }

  /** With the intended guard the same history ends with no cap. */
  lemma StreamingThenIdleLiftsCapsAsIntended()
    ensures var caps := Policy(2097152, 10485760);
      var t := IterationEffectIntended(
        IterationEffectIntended(ClientState(NoLimit, NoLimit, []), Some(OneStream), caps, NoFaults).0,
        Some(EmptyIdle), caps, NoFaults).0;
      t.upload == NoLimit && t.download == NoLimit
  {
    OneStreamIsReported();
  }
}
