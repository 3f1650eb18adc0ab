/**
  How the registry keys and handle names of SpigotTimings are derived from
  the host objects: the plugin-task key built from a scheduled task and its
  period, and the display names of the per-entity-type and
  per-tile-entity-type handles.
 */
module Names {
  import opened Options
  import opened Decimal

  /**
    What the key derivation reads of a scheduled task (a CraftTask):
    whether it runs on the main thread, the full name of its owning plugin
    if it has one, the scheduler-assigned timing name if set, and its task name.
   */
  datatype Task = Task(isSync: bool, owner: Option<string>, timingName: Option<string>, taskName: string)

  const SchedulerLabel := "CraftScheduler"
  const UnknownLabel := "Unknown"

  /** The owner part of a plugin-task key. */
  function OwnerLabel(task: Task): (r: string)
    ensures task.owner.Some? ==> r == task.owner.value
    ensures task.owner.None? ==> (r == SchedulerLabel <==> task.timingName.Some?)
    ensures task.owner.None? ==> (r == UnknownLabel <==> task.timingName.None?)
  {
    if task.owner.Some? then task.owner.value
    else if task.timingName.Some? then SchedulerLabel
    else UnknownLabel
  }

  /** Whether a task repeats, and with which period: `getPluginTaskTimings` tests `period > 0`. */
  datatype Repeat = Single | Interval(period: nat)

  function RepeatOf(period: int): (r: Repeat)
    ensures r.Interval? <==> period > 0
    ensures r.Interval? ==> r.period == period
  {
    if period > 0 then Interval(period) else Single
  }

  function RepeatSuffix(r: Repeat): string {
    match r
    case Single => "(Single)"
    case Interval(p) => "(interval:" + DecimalString(p) + ")"
  }

  /** The plugin-task key: `"Task: " + owner + " Runnable: " + taskName` and the repeat suffix. */
  function PluginTaskKey(owner: string, taskName: string, period: int): (key: string)
    ensures |key| >= 6 && key[..6] == "Task: "
  {
    "Task: " + owner + " Runnable: " + taskName + RepeatSuffix(RepeatOf(period))
  }

  /** The key the plugin-task registry uses for a task run with `period`. */
  function TaskKey(task: Task, period: int): string {
    PluginTaskKey(OwnerLabel(task), task.taskName, period)
  }

  /** A key read back: the text between "Task: " and the repeat suffix, and the repeat. */
  datatype KeyParts = KeyParts(text: string, repeat: Repeat)

  /** The number of digits at the end of `s`. */
  function TrailingDigits(s: string): (k: nat)
    ensures k <= |s| && AllDigits(s[|s| - k..])
    ensures k < |s| ==> !IsDigit(s[|s| - k - 1])
  {
    if |s| == 0 || !IsDigit(s[|s| - 1]) then 0
    else
      var k := TrailingDigits(s[..|s| - 1]) + 1;
      assert s[|s| - k..] == s[..|s| - 1][|s| - k..] + [s[|s| - 1]];
      k
  }

  /** Reads a plugin-task key: the "Task: " prefix, then the rest from its end. */
  function ParseKey(key: string): Option<KeyParts> {
    if |key| < 6 || key[..6] != "Task: " then None else ParseTail(key[6..])
  }

  /** Splits off the repeat suffix: "(Single)", or "(interval:" digits ")". */
  function ParseTail(rest: string): Option<KeyParts> {
    if |rest| >= 8 && rest[|rest| - 8..] == "(Single)" then
      Some(KeyParts(rest[..|rest| - 8], Single))
    else if |rest| == 0 || rest[|rest| - 1] != ')' then None
    else ParseInterval(rest[..|rest| - 1])
  }

  function ParseInterval(body: string): Option<KeyParts> {
    var k := TrailingDigits(body);
    var head := body[..|body| - k];
    if k == 0 || |head| < 10 || head[|head| - 10..] != "(interval:" then None
    else Some(KeyParts(head[..|head| - 10], Interval(ParseDecimal(body[|body| - k..]))))
  }

  lemma {:induction false} TrailingDigitsAfter(a: string, d: string)
    requires |a| > 0 && !IsDigit(a[|a| - 1]) && AllDigits(d)
    ensures TrailingDigits(a + d) == |d|
    decreases |d|
  {
    if |d| > 0 {
      assert (a + d)[..|a + d| - 1] == a + d[..|d| - 1];
      TrailingDigitsAfter(a, d[..|d| - 1]);
    } else {
      assert a + d == a;
    }
  }

  lemma ParseIntervalRoundTrip(text: string, p: nat)
    ensures ParseInterval(text + "(interval:" + DecimalString(p)) == Some(KeyParts(text, Interval(p)))
  {
    var ds := DecimalString(p);
    var a := text + "(interval:";
    var body := a + ds;
    TrailingDigitsAfter(a, ds);
    assert body[..|body| - |ds|] == a;
    assert body[|body| - |ds|..] == ds;
    assert a[|a| - 10..] == "(interval:";
    assert a[..|a| - 10] == text;
    ParseDecimalString(p);
  }

  lemma ParseTailRoundTrip(text: string, r: Repeat)
    ensures ParseTail(text + RepeatSuffix(r)) == Some(KeyParts(text, r))
  {
    var rest := text + RepeatSuffix(r);
    match r
    case Single =>
      assert rest[|rest| - 8..] == "(Single)";
      assert rest[..|rest| - 8] == text;
    case Interval(p) =>
      var ds := DecimalString(p);
      assert rest == (text + "(interval:" + ds) + ")";
      assert rest[|rest| - 2] == ds[|ds| - 1];
      assert rest[|rest| - 8..][6] != "(Single)"[6];
      assert rest[..|rest| - 1] == text + "(interval:" + ds;
      ParseIntervalRoundTrip(text, p);
  }

  /**
    Every plugin-task key reads back to the text owner + " Runnable: " + task name,
    and to its repeat. Owner and task name are not recoverable separately
    (see KeysCollideAcrossOwners).
   */
  lemma ParseKeyRoundTrip(owner: string, taskName: string, period: int)
    ensures ParseKey(PluginTaskKey(owner, taskName, period))
         == Some(KeyParts(owner + " Runnable: " + taskName, RepeatOf(period)))
  {
    var text := owner + " Runnable: " + taskName;
    var key := PluginTaskKey(owner, taskName, period);
    assert key[6..] == text + RepeatSuffix(RepeatOf(period));
    ParseTailRoundTrip(text, RepeatOf(period));
  }

  /** Two keys built for the same owner are equal exactly when the task names and repeats are. */
  lemma PluginTaskKeyInjective(owner: string, t1: string, p1: int, t2: string, p2: int)
    ensures PluginTaskKey(owner, t1, p1) == PluginTaskKey(owner, t2, p2)
        <==> t1 == t2 && RepeatOf(p1) == RepeatOf(p2)
  {
    if PluginTaskKey(owner, t1, p1) == PluginTaskKey(owner, t2, p2) {
      ParseKeyRoundTrip(owner, t1, p1);
      ParseKeyRoundTrip(owner, t2, p2);
      var l1 := owner + " Runnable: " + t1;
      var l2 := owner + " Runnable: " + t2;
      assert l1 == l2;
      assert t1 == l1[|owner| + 11..];
      assert t2 == l2[|owner| + 11..];
    }
  }

  /** Distinct positive periods give distinct keys; every non-positive period gives the same key. */
  lemma PluginTaskKeyPeriods(owner: string, taskName: string, p1: int, p2: int)
    ensures p1 > 0 && p1 != p2 ==> PluginTaskKey(owner, taskName, p1) != PluginTaskKey(owner, taskName, p2)
    ensures p1 <= 0 && p2 <= 0 ==> PluginTaskKey(owner, taskName, p1) == PluginTaskKey(owner, taskName, p2)
  {
    PluginTaskKeyInjective(owner, taskName, p1, taskName, p2);
  }

  /**
    The key does not separate owner from task name: an owner whose name
    contains " Runnable: " can share a key, and so a cached handle, with a
    different owner and task.
   */
  lemma KeysCollideAcrossOwners(a: string, b: string, c: string, period: int)
    ensures a != a + " Runnable: " + b
    ensures PluginTaskKey(a + " Runnable: " + b, c, period) == PluginTaskKey(a, b + " Runnable: " + c, period)
  {
  }

  /** Display-name prefixes of the per-type handles. */
  const TickEntityPrefix := "** tickEntity - "
  const TickTileEntityPrefix := "** tickTileEntity - "

  function EntityTimerName(entityType: string): (name: string)
    ensures |name| == |TickEntityPrefix| + |entityType|
    ensures name[..|TickEntityPrefix|] == TickEntityPrefix && name[|TickEntityPrefix|..] == entityType
  {
    TickEntityPrefix + entityType
  }

  function TileEntityTimerName(entityType: string): (name: string)
    ensures |name| == |TickTileEntityPrefix| + |entityType|
    ensures name[..|TickTileEntityPrefix|] == TickTileEntityPrefix && name[|TickTileEntityPrefix|..] == entityType
  {
    TickTileEntityPrefix + entityType
  }

  /** Entity types have the same handle name exactly when they have the same simple name. */
  lemma EntityTimerNameInjective(a: string, b: string)
    ensures EntityTimerName(a) == EntityTimerName(b) <==> a == b
  {
  }

  lemma TileEntityTimerNameInjective(a: string, b: string)
    ensures TileEntityTimerName(a) == TileEntityTimerName(b) <==> a == b
  {
  }

  /** No entity handle name is a tile-entity handle name, nor a plugin-task key. */
  lemma NameSpacesDisjoint(a: string, b: string, owner: string, taskName: string, period: int)
    ensures EntityTimerName(a) != TileEntityTimerName(b)
    ensures EntityTimerName(a) != PluginTaskKey(owner, taskName, period)
    ensures TileEntityTimerName(b) != PluginTaskKey(owner, taskName, period)
  {
    assert EntityTimerName(a)[7] != TileEntityTimerName(b)[7];
    assert EntityTimerName(a)[0] != PluginTaskKey(owner, taskName, period)[0];
    assert TileEntityTimerName(b)[0] != PluginTaskKey(owner, taskName, period)[0];
  }
}
