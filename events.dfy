/**
 * The event taxonomy: seven kinds of completed actions, each with a constant
 * kind name and a human-readable description built from its fields.
 */
module Events {
  import opened Format

  /** One constructor per event struct; the field names follow the structs'. */
  datatype Event =
    | RunEvent(user: string, app: string, command: string, attached: bool)
    | RestartEvent(user: string, app: string, pid: string)
    | ScaleEvent(user: string, app: string, process: string, quantity: Int64)
    | DeployEvent(user: string, app: string, image: string)
    | SetEvent(user: string, app: string, changed: seq<string>)
    | RollbackEvent(user: string, app: string, version: Int64)
    | CreateEvent(user: string, name: string)

  /** `Event()`: the name of the kind of event. */
  function Kind(e: Event): string {
    match e
    case RunEvent(_, _, _, _) => "run"
    case RestartEvent(_, _, _) => "restart"
    case ScaleEvent(_, _, _, _) => "scale"
    case DeployEvent(_, _, _) => "deploy"
    case SetEvent(_, _, _) => "set"
    case RollbackEvent(_, _, _) => "rollback"
    case CreateEvent(_, _) => "create"
  }

  /** `String()`: the description; it always opens with the acting user and has text after it. */
  function Describe(e: Event): (d: string)
    ensures |d| > |e.user| && d[..|e.user|] == e.user
  {
    match e
    case RunEvent(user, app, command, attached) => DescribeRun(user, app, command, attached)
    case RestartEvent(user, app, pid) => DescribeRestart(user, app, pid)
    case ScaleEvent(user, app, process, quantity) => DescribeScale(user, app, process, quantity)
    case DeployEvent(user, app, image) => DescribeDeploy(user, app, image)
    case SetEvent(user, app, changed) => DescribeSet(user, app, changed)
    case RollbackEvent(user, app, version) => DescribeRollback(user, app, version)
    case CreateEvent(user, name) => DescribeCreate(user, name)
  }

  function DescribeRun(user: string, app: string, command: string, attached: bool): string {
    var attachment := if attached then "attached" else "detached";
    user + " ran `" + command + "` (" + attachment + ") on " + app
  }

  function DescribeRestart(user: string, app: string, pid: string): string {
    if pid == "" then user + " restarted " + app
    else user + " restarted `" + pid + "` on " + app
  }

  function DescribeScale(user: string, app: string, process: string, quantity: Int64): string {
    user + " scaled `" + process + "` on " + app + " to " + IntToDecimal(quantity)
  }

  function DescribeDeploy(user: string, app: string, image: string): string {
    if app == "" then user + " deployed " + image
    else user + " deployed " + image + " to " + app
  }

  function DescribeSet(user: string, app: string, changed: seq<string>): string {
    user + " changed environment variables on " + app + " (" + Join(changed, ", ") + ")"
  }

  function DescribeRollback(user: string, app: string, version: Int64): string {
    user + " rolled back " + app + " to v" + IntToDecimal(version)
  }

  function DescribeCreate(user: string, name: string): string {
    user + " created " + name
  }

  predicate SameVariant(e1: Event, e2: Event) {
    || (e1.RunEvent? && e2.RunEvent?)
    || (e1.RestartEvent? && e2.RestartEvent?)
    || (e1.ScaleEvent? && e2.ScaleEvent?)
    || (e1.DeployEvent? && e2.DeployEvent?)
    || (e1.SetEvent? && e2.SetEvent?)
    || (e1.RollbackEvent? && e2.RollbackEvent?)
    || (e1.CreateEvent? && e2.CreateEvent?)
  }

  /** The seven kind names are pairwise distinct: the name identifies the variant. */
  lemma KindIdentifiesVariant(e1: Event, e2: Event)
    ensures Kind(e1) == Kind(e2) <==> SameVariant(e1, e2)
  {
    if Kind(e1) == Kind(e2) {
      assert Kind(e1)[0] == Kind(e2)[0] && |Kind(e1)| == |Kind(e2)|;
    }
  }

  /** The attachment word sits right after the command, in parentheses. */
  lemma RunAttachment(user: string, app: string, command: string, attached: bool)
    ensures var d := Describe(RunEvent(user, app, command, attached));
            var k := |user| + |command| + 9;
            |d| >= k + 8 && d[k - 2..k] == " (" && d[k..k + 8] == (if attached then "attached" else "detached")
  {
    var w := if attached then "attached" else "detached";
    var head := user + " ran `" + command + "` (";
    assert Describe(RunEvent(user, app, command, attached)) == head + w + (") on " + app);
  }

  /** Two Run descriptions that differ only in the flag are different texts. */
  lemma RunFlagRecoverable(user: string, app: string, command: string, x: bool, y: bool)
    ensures Describe(RunEvent(user, app, command, x)) == Describe(RunEvent(user, app, command, y)) <==> x == y
  {
    RunAttachment(user, app, command, x);
    RunAttachment(user, app, command, y);
    var k := |user| + |command| + 9;
    if x != y {
      assert "attached"[0] != "detached"[0];
      assert Describe(RunEvent(user, app, command, x))[k] != Describe(RunEvent(user, app, command, y))[k];
    }
  }

  /** Restart's two forms: the bare app when no PID is given, the quoted PID on the app otherwise. */
  lemma RestartDescription(user: string, app: string, pid: string)
    ensures pid == "" ==> Describe(RestartEvent(user, app, pid)) == user + " restarted " + app
    ensures pid != "" ==> Describe(RestartEvent(user, app, pid)) == user + " restarted `" + pid + "` on " + app
  {
  }

  /** Given the user and app, the Restart description determines the PID, including whether it is empty. */
  lemma RestartPidRecoverable(user: string, app: string, p: string, q: string)
    ensures Describe(RestartEvent(user, app, p)) == Describe(RestartEvent(user, app, q)) <==> p == q
  {
    var dp, dq := Describe(RestartEvent(user, app, p)), Describe(RestartEvent(user, app, q));
    if dp == dq && p != "" && q != "" {
      assert |p| == |q|;
      var k := |user| + 12;
      assert dp[k..k + |p|] == p;
      assert dq[k..k + |q|] == q;
    }
  }

  /** Scale ends with the decimal quantity, so the quantity is recoverable from the text. */
  lemma ScaleQuantityRecoverable(user: string, app: string, process: string, q1: Int64, q2: Int64)
    ensures Describe(ScaleEvent(user, app, process, q1)) == Describe(ScaleEvent(user, app, process, q2)) <==> q1 == q2
  {
    var head := user + " scaled `" + process + "` on " + app + " to ";
    var d1, d2 := Describe(ScaleEvent(user, app, process, q1)), Describe(ScaleEvent(user, app, process, q2));
    assert d1 == head + IntToDecimal(q1) && d2 == head + IntToDecimal(q2);
    if d1 == d2 {
      assert d1[|head|..] == IntToDecimal(q1) && d2[|head|..] == IntToDecimal(q2);
      IntToDecimalInjective(q1, q2);
    }
  }

  /** A Deploy without an app names only the image. */
  lemma DeployDescription(user: string, image: string)
    ensures Describe(DeployEvent(user, "", image)) == user + " deployed " + image
  {
  }

  /** A Deploy with an app is the app-less description followed by " to " and the app. */
  lemma DeployToApp(user: string, app: string, image: string)
    requires app != ""
    ensures Describe(DeployEvent(user, app, image)) == Describe(DeployEvent(user, "", image)) + " to " + app
  {
  }

  /** Set ends with the changed names, comma-joined, in parentheses; no names gives "()". */
  lemma SetChangedParenthesised(user: string, app: string, changed: seq<string>)
    ensures var d := Describe(SetEvent(user, app, changed));
            var j := Join(changed, ", ");
            |d| >= |j| + 2 && d[|d| - |j| - 2..] == "(" + j + ")"
    ensures changed == [] ==> Describe(SetEvent(user, app, changed))[|Describe(SetEvent(user, app, changed))| - 2..] == "()"
  {
    var j := Join(changed, ", ");
    var head := user + " changed environment variables on " + app + " ";
    assert Describe(SetEvent(user, app, changed)) == head + ("(" + j + ")");
  }

  /** One more changed name extends the parenthesised list by ", " and that name. */
  lemma SetChangedAppend(user: string, app: string, changed: seq<string>, x: string)
    requires changed != []
    ensures var d := Describe(SetEvent(user, app, changed));
            Describe(SetEvent(user, app, changed + [x])) == d[..|d| - 1] + ", " + x + ")"
  {
    var j, j2 := Join(changed, ", "), Join(changed + [x], ", ");
    JoinAppend(changed, x, ", ");
    assert j2 == j + ", " + x;
    var head := user + " changed environment variables on " + app + " (";
    var d, d2 := DescribeSet(user, app, changed), DescribeSet(user, app, changed + [x]);
    assert d == (head + j) + ")";
    assert d[..|d| - 1] == head + j;
    assert d2 == head + (j + ", " + x) + ")";
    assert d2 == (head + j) + ", " + x + ")";
  }

  /** Rollback ends with "v" and the decimal version. */
  lemma RollbackEndsWithVersion(user: string, app: string, version: Int64)
    ensures var d := Describe(RollbackEvent(user, app, version));
            var v := IntToDecimal(version);
            |d| > |v| && d[|d| - |v| - 1..] == "v" + v
  {
    var head := user + " rolled back " + app + " to ";
    assert Describe(RollbackEvent(user, app, version)) == head + ("v" + IntToDecimal(version));
  }

  /** Given the user and app, the Rollback description determines the version. */
  lemma RollbackVersionRecoverable(user: string, app: string, v1: Int64, v2: Int64)
    ensures Describe(RollbackEvent(user, app, v1)) == Describe(RollbackEvent(user, app, v2)) <==> v1 == v2
  {
    var head := user + " rolled back " + app + " to v";
    var d1, d2 := Describe(RollbackEvent(user, app, v1)), Describe(RollbackEvent(user, app, v2));
    assert d1 == head + IntToDecimal(v1) && d2 == head + IntToDecimal(v2);
    if d1 == d2 {
      assert d1[|head|..] == IntToDecimal(v1) && d2[|head|..] == IntToDecimal(v2);
      IntToDecimalInjective(v1, v2);
    }
  }

  /** Create names the new app last, after the user and " created ". */
  lemma CreateEndsWithName(user: string, name: string)
    ensures var d := Describe(CreateEvent(user, name));
            |d| == |user| + 9 + |name| && d[|user|..|user| + 9] == " created " && d[|user| + 9..] == name
  {
  }

  /** No field the caller supplied contains a backtick. */
  predicate FieldsWithoutBacktick(e: Event) {
    '`' !in e.user &&
    match e
    case RunEvent(_, app, command, _) => '`' !in app && '`' !in command
    case RestartEvent(_, app, pid) => '`' !in app && '`' !in pid
    case ScaleEvent(_, app, process, _) => '`' !in app && '`' !in process
    case DeployEvent(_, app, image) => '`' !in app && '`' !in image
    case SetEvent(_, app, changed) => '`' !in app && forall k :: 0 <= k < |changed| ==> '`' !in changed[k]
    case RollbackEvent(_, app, _) => '`' !in app
    case CreateEvent(_, name) => '`' !in name
  }

  /**
   * The format strings quote exactly three fields in backticks: Run's command,
   * a non-empty Restart PID and Scale's process. With backtick-free fields, a
   * description holds a backtick exactly for those.
   */
  lemma BackticksQuoteOnly(e: Event)
    requires FieldsWithoutBacktick(e)
    ensures '`' in Describe(e) <==> e.RunEvent? || e.ScaleEvent? || (e.RestartEvent? && e.pid != "")
  {
    match e
    case RunEvent(user, app, command, attached) =>
      assert DescribeRun(user, app, command, attached)[|user| + 5] == '`';
    case RestartEvent(user, app, pid) =>
      if pid != "" {
        assert DescribeRestart(user, app, pid)[|user| + 11] == '`';
      } else {
        NoBacktickIn(user + " restarted ", app);
      }
    case ScaleEvent(user, app, process, quantity) =>
      assert DescribeScale(user, app, process, quantity)[|user| + 8] == '`';
    case DeployEvent(user, app, image) =>
      NoBacktickIn(user + " deployed ", image);
      if app != "" {
        NoBacktickIn(user + " deployed " + image + " to ", app);
      }
    case SetEvent(user, app, changed) =>
      JoinExcludes('`', changed, ", ");
      NoBacktickIn(user + " changed environment variables on ", app);
      NoBacktickIn(user + " changed environment variables on " + app + " (", Join(changed, ", "));
      NoBacktickIn(user + " changed environment variables on " + app + " (" + Join(changed, ", "), ")");
    case RollbackEvent(user, app, version) =>
      IntToDecimalOnlySignAndDigits('`', version);
      NoBacktickIn(user + " rolled back ", app);
      NoBacktickIn(user + " rolled back " + app + " to v", IntToDecimal(version));
    case CreateEvent(user, name) =>
      NoBacktickIn(user + " created ", name);
  }

  lemma NoBacktickIn(a: string, b: string)
    requires '`' !in a && '`' !in b
    ensures '`' !in a + b
  {
  }

  /** The spot checks of the description rules for Restart. */
  lemma RestartExamples()
    ensures Describe(RestartEvent("bob", "api", "")) == "bob restarted api"
    ensures Describe(RestartEvent("bob", "api", "web.1")) == "bob restarted `web.1` on api"
  {
  }
}
