/**
 * The v5 site's scroll helpers: a one-time global set-up guarded by a module
 * flag, and a function that marks a scroll-trigger configuration to be
 * recomputed on refresh.
 */
module ScrollOptimization {

  /** A configuration value of a scroll trigger. */
  datatype ConfigValue = Bool(b: bool) | Number(n: real) | Text(s: string)

  type Config = map<string, ConfigValue>

  const InvalidateOnRefresh: string := "invalidateOnRefresh"

  /** `createSmoothScrollTrigger(config)`: `{...config, invalidateOnRefresh: true}`. */
  function SmoothScrollTrigger(config: Config): (r: Config)
    ensures r.Keys == config.Keys + {InvalidateOnRefresh}
    ensures r[InvalidateOnRefresh] == Bool(true)
    ensures forall k :: k in config && k != InvalidateOnRefresh ==> r[k] == config[k]
  {
    config[InvalidateOnRefresh := Bool(true)]
  }

  /** Applying it twice is applying it once, and a configuration that already has the flag set is unchanged. */
  lemma SmoothScrollTriggerIdempotent(config: Config)
    ensures SmoothScrollTrigger(SmoothScrollTrigger(config)) == SmoothScrollTrigger(config)
    ensures InvalidateOnRefresh in config && config[InvalidateOnRefresh] == Bool(true) ==>
      SmoothScrollTrigger(config) == config
  {
  }

  /** The passive listeners the set-up registers. */
  const PassiveEvents: seq<string> := ["touchstart", "touchmove", "touchend", "wheel"]

  /** The module flag, the global `ignoreMobileResize` setting and the listeners registered so far. */
  datatype Globals = Globals(scrollOptimized: bool, ignoreMobileResize: bool, passiveListeners: seq<string>)

  const Fresh := Globals(false, false, [])

  /** `optimizeScrollPerformance()`; `hasWindow` is `typeof window !== 'undefined'`. */
  function Optimize(g: Globals, hasWindow: bool): (r: Globals)
    ensures g.scrollOptimized || !hasWindow ==> r == g
    ensures !g.scrollOptimized && hasWindow ==>
      r.scrollOptimized && r.ignoreMobileResize && r.passiveListeners == g.passiveListeners + PassiveEvents
  {
    if g.scrollOptimized || !hasWindow then g
    else Globals(true, true, g.passiveListeners + PassiveEvents)
  }

  /** However often it is called, with or without a window, the set-up runs at most once. */
  function OptimizeAll(g: Globals, calls: seq<bool>): Globals {
    if calls == [] then g else Optimize(OptimizeAll(g, calls[..|calls| - 1]), calls[|calls| - 1])
  }

  lemma {:induction false} SetUpRunsAtMostOnce(calls: seq<bool>)
    ensures var r := OptimizeAll(Fresh, calls);
      (r.scrollOptimized <==> true in calls) &&
      (r.passiveListeners == if true in calls then PassiveEvents else [])
  {
    if calls != [] {
      SetUpRunsAtMostOnce(calls[..|calls| - 1]);
      assert forall c :: c in calls <==> c in calls[..|calls| - 1] || c == calls[|calls| - 1];
    }
  }

  /** The module-level state. */
  class ScrollSetup {
    var scrollOptimized: bool
    var ignoreMobileResize: bool
    var passiveListeners: seq<string>

    function State(): Globals
      reads this
    {
      Globals(scrollOptimized, ignoreMobileResize, passiveListeners)
    }

    constructor ()
      ensures State() == Fresh
    {
      scrollOptimized := false;
      ignoreMobileResize := false;
      passiveListeners := [];
    }

    method OptimizeScrollPerformance(hasWindow: bool)
      modifies this
      ensures State() == Optimize(old(State()), hasWindow)
    {
      if scrollOptimized || !hasWindow {
        return;
      }
      ignoreMobileResize := true;
      var i := 0;
      while i < |PassiveEvents|
        invariant 0 <= i <= |PassiveEvents|
        invariant passiveListeners == old(passiveListeners) + PassiveEvents[..i]
        invariant !scrollOptimized && ignoreMobileResize
      {
        passiveListeners := passiveListeners + [PassiveEvents[i]];
        i := i + 1;
      }
      scrollOptimized := true;
    }
  }
}
