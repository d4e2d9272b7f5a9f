/**
 * The parts of main.py with rules of their own: the text shown and logged for
 * a fetched page, and the session flags that make each startup milestone be
 * logged at most once per session.
 */
module App {
  import opened Wrappers
  import opened Text
  import opened ConfigLoader
  import Modeling

  // ---------------------------------------------------------------- truncation

  const PreviewLimit := 3000
  const LogExcerptLimit := 300
  const TruncationMarker := "..."

  /** The "Extracted Text" box: the first 3000 characters, then "..." if anything was cut. */
  function Preview(pageText: string): (r: string)
    ensures |pageText| <= PreviewLimit ==> r == pageText
    ensures |pageText| > PreviewLimit ==> r == pageText[..PreviewLimit] + TruncationMarker
    ensures |r| <= PreviewLimit + |TruncationMarker|
    ensures var k := if |pageText| < PreviewLimit then |pageText| else PreviewLimit;
      k <= |r| && r[..k] == pageText[..k]
  {
    Head(pageText, PreviewLimit) + (if |pageText| > PreviewLimit then TruncationMarker else "")
  }

  /** The excerpt written to the log: `page_text[:300]`. */
  function LogExcerpt(pageText: string): (r: string)
    ensures |r| <= LogExcerptLimit && IsPrefix(r, pageText)
    ensures |pageText| >= LogExcerptLimit ==> |r| == LogExcerptLimit
    ensures |pageText| < LogExcerptLimit ==> r == pageText
  {
    Head(pageText, LogExcerptLimit)
  }

  /** What is logged is also what the preview starts with. */
  lemma LogExcerptStartsPreview(pageText: string)
    ensures IsPrefix(LogExcerpt(pageText), Preview(pageText))
  {
    var e := LogExcerpt(pageText);
    var p := Preview(pageText);
    assert p[..|e|] == pageText[..|e|];
  }

  // ---------------------------------------------------------------- session guards

  /** The startup steps that are logged once per session. */
  datatype Milestone = LoggingStarted | ConfigLoaded | ScraperInitialized | LLMInitialized

  /** Order in which a run of the script reaches them. */
  const StartupOrder := [LoggingStarted, ConfigLoaded, ScraperInitialized, LLMInitialized]

  function MilestoneOfKey(key: string): Option<Milestone> {
    if key == "logging_started_logged" then Some(LoggingStarted)
    else if key == "config_loaded_logged" then Some(ConfigLoaded)
    else if key == "web_scraper_initialized_logged" then Some(ScraperInitialized)
    else if key == "llm_initialized_logged" then Some(LLMInitialized)
    else None
  }

  /** The `st.session_state` key that records a milestone; distinct milestones have distinct keys. */
  function SessionKey(m: Milestone): (key: string)
    ensures MilestoneOfKey(key) == Some(m)
  {
    match m
    case LoggingStarted => "logging_started_logged"
    case ConfigLoaded => "config_loaded_logged"
    case ScraperInitialized => "web_scraper_initialized_logged"
    case LLMInitialized => "llm_initialized_logged"
  }

  /**
   * One user's `st.session_state` (the guards only ever store `True`), with the
   * milestone messages this session has logged, in order.
   */
  datatype Snapshot = Snapshot(state: map<string, bool>, log: seq<Milestone>)

  /** How often `m` occurs in `log`. */
  function Count(log: seq<Milestone>, m: Milestone): nat {
    if log == [] then 0 else (if log[0] == m then 1 else 0) + Count(log[1..], m)
  }

  lemma {:induction false} CountAppend(log: seq<Milestone>, x: Milestone, m: Milestone)
    ensures Count(log + [x], m) == Count(log, m) + (if x == m then 1 else 0)
  {
    if log != [] {
      assert (log + [x])[1..] == log[1..] + [x];
      CountAppend(log[1..], x, m);
    }
  }

  /** A milestone is in the log once if its key is set, and not at all otherwise. */
  predicate Consistent(s: Snapshot) {
    forall m :: Count(s.log, m) == if SessionKey(m) in s.state then 1 else 0
  }

  lemma SessionKeyInjective(a: Milestone, b: Milestone)
    ensures SessionKey(a) == SessionKey(b) <==> a == b
  {
    if SessionKey(a) == SessionKey(b) { assert MilestoneOfKey(SessionKey(a)) == MilestoneOfKey(SessionKey(b)); }
  }

  /**
   * One guard: `if key not in st.session_state: logging.info(...);
   * st.session_state[key] = True`.
   */
  function Guard(s: Snapshot, m: Milestone): (t: Snapshot)
    ensures SessionKey(m) in t.state
    ensures t.log == s.log || t.log == s.log + [m]
    ensures t.log == s.log <==> SessionKey(m) in s.state
  {
    var key := SessionKey(m);
    if key in s.state then s else Snapshot(s.state[key := true], s.log + [m])
  }

  /**
   * A guard logs its milestone exactly when the key was missing, adds only
   * that key and keeps every existing entry.
   */
  lemma GuardEffect(s: Snapshot, m: Milestone)
    ensures var t := Guard(s, m);
      && t.state.Keys == s.state.Keys + {SessionKey(m)}
      && (forall k :: k in s.state ==> t.state[k] == s.state[k])
      && t.log == s.log + (if SessionKey(m) in s.state then [] else [m])
  {
  }

  /** A guard keeps the log and the recorded keys in step. */
  lemma GuardConsistent(s: Snapshot, m: Milestone)
    requires Consistent(s)
    ensures Consistent(Guard(s, m))
  {
    var t := Guard(s, m);
    if SessionKey(m) !in s.state {
      forall q ensures Count(t.log, q) == if SessionKey(q) in t.state then 1 else 0 {
        CountAppend(s.log, m, q);
        SessionKeyInjective(q, m);
      }
    }
  }

  // ---------------------------------------------------------------- one run of the script

  /**
   * Where one run of the startup (main.py, lines 33 to 54) ends: `load_config`
   * raises when the configuration file is missing or invalid, and `init_llm`
   * raises when no provider is enabled; either exception ends the run.
   */
  datatype RunEnd = ConfigLoadFailed | LLMInitFailed | Completed

  /**
   * How far a run gets with the configuration `load_config` returns (`None`
   * when it raises): it completes exactly when some provider is enabled.
   */
  function RunEndOf(loaded: Option<Config>): (e: RunEnd)
    ensures e == ConfigLoadFailed <==> loaded.None?
    ensures e == Completed <==> loaded.Some? && GetSelectedLLM(loaded.value.llmsConfig).Some?
  {
    if loaded.None? then ConfigLoadFailed
    else if Modeling.CreateLLMFromConfig(loaded.value.llmsConfig).Failure? then LLMInitFailed
    else Completed
  }

  /** One run of the startup: the guards up to the step that raises, if any. */
  function Startup(s: Snapshot, e: RunEnd): (t: Snapshot)
    ensures SessionKey(LoggingStarted) in t.state
    ensures e == Completed ==> SessionKey(LLMInitialized) in t.state
    ensures |s.log| <= |t.log| && t.log[..|s.log|] == s.log
  {
    var s1 := Guard(s, LoggingStarted);
    if e == ConfigLoadFailed then s1
    else
      var s3 := Guard(Guard(s1, ConfigLoaded), ScraperInitialized);
      if e == LLMInitFailed then s3 else Guard(s3, LLMInitialized)
  }

  /** The milestones whose guard a run reaches, in order. */
  function Reached(e: RunEnd): (r: seq<Milestone>)
    ensures |r| <= |StartupOrder| && r == StartupOrder[..|r|]
    ensures LoggingStarted in r
    ensures LLMInitialized in r <==> e == Completed
  {
    match e
    case ConfigLoadFailed => [LoggingStarted]
    case LLMInitFailed => [LoggingStarted, ConfigLoaded, ScraperInitialized]
    case Completed => StartupOrder
  }

  /** The guards of `ms`, run one after the other. */
  function RunGuards(s: Snapshot, ms: seq<Milestone>): Snapshot
    decreases |ms|
  {
    if ms == [] then s else RunGuards(Guard(s, ms[0]), ms[1..])
  }

  predicate Distinct(ms: seq<Milestone>) {
    forall i, j :: 0 <= i < j < |ms| ==> ms[i] != ms[j]
  }

  /** A run is the guards it reaches, in startup order. */
  lemma StartupRunsReached(s: Snapshot, e: RunEnd)
    ensures Startup(s, e) == RunGuards(s, Reached(e))
    ensures Distinct(Reached(e))
  {
  }

  lemma MilestoneInStartupOrder(m: Milestone)
    ensures m in StartupOrder
  {
    match m
    case LoggingStarted => assert StartupOrder[0] == m;
    case ConfigLoaded => assert StartupOrder[1] == m;
    case ScraperInitialized => assert StartupOrder[2] == m;
    case LLMInitialized => assert StartupOrder[3] == m;
  }

  /** The milestones of `order`, in order, whose key is not among `keys`. */
  function Unlogged(order: seq<Milestone>, keys: set<string>): seq<Milestone> {
    if order == [] then []
    else (if SessionKey(order[0]) in keys then [] else [order[0]]) + Unlogged(order[1..], keys)
  }

  /** `Unlogged` keeps exactly the milestones of `order` whose key is not among `keys`. */
  lemma {:induction false} UnloggedMembers(order: seq<Milestone>, keys: set<string>)
    ensures forall m :: m in Unlogged(order, keys) <==> m in order && SessionKey(m) !in keys
  {
    if order != [] {
      UnloggedMembers(order[1..], keys);
      assert forall m :: m in order <==> m == order[0] || m in order[1..];
    }
  }

  /** Recording a milestone that is not in `order` does not change what `order` still has to log. */
  lemma {:induction false} UnloggedIgnoresOtherKey(order: seq<Milestone>, keys: set<string>, m: Milestone)
    requires m !in order
    ensures Unlogged(order, keys + {SessionKey(m)}) == Unlogged(order, keys)
  {
    if order != [] {
      SessionKeyInjective(order[0], m);
      UnloggedIgnoresOtherKey(order[1..], keys, m);
    }
  }

  lemma {:induction false} RunGuardsConsistent(s: Snapshot, ms: seq<Milestone>)
    requires Consistent(s)
    ensures Consistent(RunGuards(s, ms))
    decreases |ms|
  {
    if ms != [] {
      GuardConsistent(s, ms[0]);
      RunGuardsConsistent(Guard(s, ms[0]), ms[1..]);
    }
  }

  /** Running guards records exactly their keys and changes no entry already there. */
  lemma {:induction false} RunGuardsRecords(s: Snapshot, ms: seq<Milestone>)
    ensures var t := RunGuards(s, ms);
      && t.state.Keys == s.state.Keys + (set m | m in ms :: SessionKey(m))
      && (forall k :: k in s.state ==> t.state[k] == s.state[k])
    decreases |ms|
  {
    if ms != [] {
      GuardEffect(s, ms[0]);
      RunGuardsRecords(Guard(s, ms[0]), ms[1..]);
      assert (set m | m in ms :: SessionKey(m)) == {SessionKey(ms[0])} + (set m | m in ms[1..] :: SessionKey(m)) by {
        assert forall m :: m in ms <==> m == ms[0] || m in ms[1..];
      }
    }
  }

  lemma DistinctTail(ms: seq<Milestone>)
    requires Distinct(ms) && ms != []
    ensures ms[0] !in ms[1..] && Distinct(ms[1..])
  {
    forall j | 0 <= j < |ms[1..]| ensures ms[1..][j] != ms[0] { assert ms[1..][j] == ms[j + 1]; }
  }

  /** Running distinct guards logs, in order, exactly those whose key was missing. */
  lemma {:induction false} RunGuardsLogs(s: Snapshot, ms: seq<Milestone>)
    requires Distinct(ms)
    ensures RunGuards(s, ms).log == s.log + Unlogged(ms, s.state.Keys)
    decreases |ms|
  {
    if ms != [] {
      var m := ms[0];
      var s1 := Guard(s, m);
      var rest := Unlogged(ms[1..], s.state.Keys);
      GuardEffect(s, m);
      DistinctTail(ms);
      RunGuardsLogs(s1, ms[1..]);
      assert RunGuards(s, ms) == RunGuards(s1, ms[1..]);
      if SessionKey(m) in s.state {
        assert s1 == s;
        assert Unlogged(ms, s.state.Keys) == [] + rest;
      } else {
        UnloggedIgnoresOtherKey(ms[1..], s.state.Keys, m);
        assert Unlogged(ms, s.state.Keys) == [m] + rest;
        assert s1.log + rest == s.log + ([m] + rest);
      }
    }
  }

  /** Guards whose keys are all recorded change nothing. */
  lemma {:induction false} RunGuardsIdle(s: Snapshot, ms: seq<Milestone>)
    requires forall m :: m in ms ==> SessionKey(m) in s.state
    ensures RunGuards(s, ms) == s
    decreases |ms|
  {
    if ms != [] {
      RunGuardsIdle(s, ms[1..]);
    }
  }

  /** A startup run keeps the log and the recorded keys in step. */
  lemma StartupConsistent(s: Snapshot, e: RunEnd)
    requires Consistent(s)
    ensures Consistent(Startup(s, e))
  {
    StartupRunsReached(s, e);
    RunGuardsConsistent(s, Reached(e));
  }

  /**
   * A startup run records the keys of the milestones it reaches, no other key,
   * and changes no entry already there.
   */
  lemma StartupRecordsReached(s: Snapshot, e: RunEnd)
    ensures var t := Startup(s, e);
      && t.state.Keys == s.state.Keys + (set m | m in Reached(e) :: SessionKey(m))
      && (forall k :: k in s.state ==> t.state[k] == s.state[k])
  {
    StartupRunsReached(s, e);
    RunGuardsRecords(s, Reached(e));
  }

  /** With the configuration loaded and a provider enabled, a run records all four milestones. */
  lemma StartupRecordsAll(s: Snapshot, c: Config)
    requires GetSelectedLLM(c.llmsConfig).Some?
    ensures forall m :: SessionKey(m) in Startup(s, RunEndOf(Some(c))).state
  {
    var e := RunEndOf(Some(c));
    assert e == Completed;
    StartupRecordsReached(s, e);
    forall m ensures SessionKey(m) in Startup(s, e).state {
      MilestoneInStartupOrder(m);
    }
  }

  /** A startup run logs, in startup order, exactly the reached milestones not yet recorded. */
  lemma StartupLogsUnrecorded(s: Snapshot, e: RunEnd)
    ensures Startup(s, e).log == s.log + Unlogged(Reached(e), s.state.Keys)
  {
    StartupRunsReached(s, e);
    RunGuardsLogs(s, Reached(e));
  }

  /**
   * Streamlit reruns the whole script on every interaction; in the same
   * session, with the same configuration, a rerun logs nothing and changes
   * nothing, and every reached milestone has been logged exactly once.
   */
  lemma StartupRerunChangesNothing(s: Snapshot, e: RunEnd)
    requires Consistent(s)
    ensures Startup(Startup(s, e), e) == Startup(s, e)
    ensures forall m :: m in Reached(e) ==> Count(Startup(s, e).log, m) == 1
  {
    var t := Startup(s, e);
    StartupConsistent(s, e);
    StartupRecordsReached(s, e);
    assert forall m :: m in Reached(e) ==> SessionKey(m) in t.state;
    StartupRunsReached(t, e);
    RunGuardsIdle(t, Reached(e));
  }

  /** With a provider enabled, every milestone is logged exactly once in the session. */
  lemma StartupLogsEachOnce(s: Snapshot, c: Config)
    requires Consistent(s)
    requires GetSelectedLLM(c.llmsConfig).Some?
    ensures forall m :: Count(Startup(s, RunEndOf(Some(c))).log, m) == 1
  {
    var e := RunEndOf(Some(c));
    assert e == Completed;
    StartupRerunChangesNothing(s, e);
    forall m ensures Count(Startup(s, e).log, m) == 1 {
      MilestoneInStartupOrder(m);
    }
  }

  /**
   * With no provider enabled, `init_llm` raises on every run: the LLM
   * milestone is never recorded nor logged, however often the script reruns.
   */
  lemma NoProviderNeverLogsLLM(s: Snapshot, c: Config)
    requires Consistent(s) && SessionKey(LLMInitialized) !in s.state
    requires GetSelectedLLM(c.llmsConfig).None?
    ensures var t := Startup(s, RunEndOf(Some(c)));
      && SessionKey(LLMInitialized) !in t.state
      && Count(t.log, LLMInitialized) == 0
      && Startup(t, RunEndOf(Some(c))) == t
  {
    var e := RunEndOf(Some(c));
    assert e == LLMInitFailed;
    StartupConsistent(s, e);
    StartupRecordsReached(s, e);
    StartupRerunChangesNothing(s, e);
    SessionKeyInjective(LLMInitialized, LoggingStarted);
    SessionKeyInjective(LLMInitialized, ConfigLoaded);
    SessionKeyInjective(LLMInitialized, ScraperInitialized);
  }

  /** The session as the running script sees it: `st.session_state` is updated in place. */
  class Session {
    var state: map<string, bool>
    var log: seq<Milestone>

    function Current(): Snapshot
      reads this
    {
      Snapshot(state, log)
    }

    ghost predicate Valid()
      reads this
    {
      Consistent(Current())
    }

    constructor ()
      ensures Valid() && state == map[] && log == []
    {
      state := map[];
      log := [];
    }

    /** One guard, on the live session state. */
    method LogOnce(m: Milestone) returns (logged: bool)
      requires Valid()
      modifies this
      ensures Valid()
      ensures logged <==> SessionKey(m) !in old(state)
      ensures Current() == Guard(old(Current()), m)
    {
      GuardConsistent(Current(), m);
      var key := SessionKey(m);
      logged := key !in state;
      if logged {
        log := log + [m];
        state := state[key := true];
      }
    }

    /**
     * The guards of one script run, in order, up to the first step that
     * raises: `load_config` (when `loaded` is `None`) or `init_llm` (when no
     * provider is enabled).
     */
    method RunStartup(loaded: Option<Config>)
      requires Valid()
      modifies this
      ensures Valid()
      ensures Current() == Startup(old(Current()), RunEndOf(loaded))
    {
      var _ := LogOnce(LoggingStarted);
      if loaded.None? {
        return;
      }
      var _ := LogOnce(ConfigLoaded);
      var _ := LogOnce(ScraperInitialized);
      var llm := Modeling.CreateLLMFromConfig(loaded.value.llmsConfig);
      if llm.Failure? {
        return;
      }
      var _ := LogOnce(LLMInitialized);
    }
  }
}
