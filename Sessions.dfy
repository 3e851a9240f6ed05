/** What `process_plex_sessions` decides from a media server's session list:
    the streaming/idle classification from the root's `size` attribute, the
    bandwidth policy that follows from it, and the report line written for
    each active session. */
module Sessions {
  import opened Wrappers
  import opened Xml
  import opened Limits

  /** A bandwidth policy: the upload and download caps in bytes per second,
      -1 meaning no limit. */
  datatype Policy = Policy(upload: int, download: int)

  const Unlimited: Policy := Policy(NoLimit, NoLimit)

  /** The root's `size` attribute, "0" when it is absent. */
  function SizeOf(root: Element): string
  {
    GetOr(root.attrib, "size", "0")
  }

  /** Someone is streaming exactly when `size` is present and is not the text "0". */
  predicate IsStreaming(root: Element)
  {
    SizeOf(root) != "0"
  }

  /** The policy `process_plex_sessions` applies: the configured caps while
      someone is streaming, no limit at all otherwise. */
  function PolicyFor(root: Element, caps: Policy): (p: Policy)
    ensures IsStreaming(root) ==> p == caps
    ensures !IsStreaming(root) ==> p == Unlimited
  {
    if SizeOf(root) != "0" then caps else Unlimited
  }

  /** The policy reads nothing of the root but its `size` attribute: neither
      the number of sessions listed under it nor their contents. */
  lemma PolicyIgnoresSessions(r1: Element, r2: Element, caps: Policy)
    requires SizeOf(r1) == SizeOf(r2)
    ensures PolicyFor(r1, caps) == PolicyFor(r2, caps)
  {
  }

  /** A root without a `size` attribute is idle, whatever it lists and whatever the caps. */
  lemma MissingSizeIsIdle(root: Element, caps: Policy)
    requires "size" !in root.attrib
    ensures PolicyFor(root, caps) == Unlimited
  {
  }

  predicate IsSuffix(suffix: string, s: string)
  {
    |suffix| <= |s| && s[|s| - |suffix|..] == suffix
  }

  /** How a Python f-string shows an optional attribute: its text, or "None". */
  function Shown(attr: Option<string>): string
  {
    match attr
    case None => "None"
    case Some(s) => s
  }

  /** The truth value of an optional string: present and not empty. */
  predicate IsTruthyText(attr: Option<string>)
  {
    attr.Some? && attr.value != ""
  }

  /** The title shown for a session: "show - season - episode" when the
      `grandparentTitle` attribute is a non-empty string, the bare `title`
      otherwise. */
  function Title(attrib: map<string, string>): (t: string)
    ensures IsTruthyText(Get(attrib, "grandparentTitle")) ==>
      attrib["grandparentTitle"] + " - " + Shown(Get(attrib, "parentTitle")) + " - " <= t
    ensures IsTruthyText(Get(attrib, "grandparentTitle")) ==>
      |t| == |attrib["grandparentTitle"]| + |Shown(Get(attrib, "parentTitle"))| + |Shown(Get(attrib, "title"))| + 6
    ensures !IsTruthyText(Get(attrib, "grandparentTitle")) ==> t == Shown(Get(attrib, "title"))
    ensures IsSuffix(Shown(Get(attrib, "title")), t)
  {
    var grandparent := Get(attrib, "grandparentTitle");
    if IsTruthyText(grandparent) then
      grandparent.value + " - " + Shown(Get(attrib, "parentTitle")) + " - " + Shown(Get(attrib, "title"))
    else
      Shown(Get(attrib, "title"))
  }

  /** `session.find('./User').attrib['title']`: None when the session has no
      `User` child or that child has no `title`, where the daemon raises. */
  function UserName(session: Element): (name: Option<string>)
    ensures name.Some? <==>
      FindAll(session.children, "User") != [] && "title" in FindAll(session.children, "User")[0].attrib
    ensures name.Some? ==> name.value == FindAll(session.children, "User")[0].attrib["title"]
  {
    var user := Find(session.children, "User");
    if user.Some? && "title" in user.value.attrib then Some(user.value.attrib["title"]) else None
  }

  /** What a session's line says before its title: the user and the library
      (shown as "None" when the attribute is absent). */
  function LinePrefix(user: string, attrib: map<string, string>): string
  {
    "User: " + user + ", Library: " + Shown(Get(attrib, "librarySectionTitle")) + ", Title: "
  }

  /** The line logged for one session, or None where building it raises. */
  function ReportLine(session: Element): (line: Option<string>)
    ensures line.Some? <==> UserName(session).Some?
    ensures line.Some? ==> LinePrefix(UserName(session).value, session.attrib) <= line.value
    ensures line.Some? ==> |line.value| == |LinePrefix(UserName(session).value, session.attrib)| + |Title(session.attrib)|
    ensures line.Some? ==> IsSuffix(Title(session.attrib), line.value)
  {
    match UserName(session)
    case None => None
    case Some(user) =>
      Some("User: " + user + ", Library: " + Shown(Get(session.attrib, "librarySectionTitle"))
        + ", Title: " + Title(session.attrib))
  }

  /** The outcome of building each session's line, in document order. */
  function Attempts(sessions: seq<Element>): (attempts: seq<Option<string>>)
    ensures |attempts| == |sessions|
    ensures forall i :: 0 <= i < |sessions| ==> attempts[i] == ReportLine(sessions[i])
  {
    seq(|sessions|, i requires 0 <= i < |sessions| => ReportLine(sessions[i]))
  }

  /** The lines logged, in order, and whether logging stopped at a line that
      could not be built (the exception escapes and nothing after it runs). */
  datatype SessionReport = SessionReport(lines: seq<string>, crashed: bool)

  function Report(attempts: seq<Option<string>>): (rep: SessionReport)
    ensures |rep.lines| <= |attempts|
    ensures forall i :: 0 <= i < |rep.lines| ==> attempts[i] == Some(rep.lines[i])
    ensures rep.crashed <==> |rep.lines| < |attempts|
    ensures rep.crashed ==> attempts[|rep.lines|].None?
  {
    if attempts == [] then SessionReport([], false)
    else
      match attempts[0]
      case None => SessionReport([], true)
      case Some(line) =>
        var rest := Report(attempts[1..]);
        SessionReport([line] + rest.lines, rest.crashed)
  }
}
