/** Loading, calling and unloading plugins (`opengram_plugins/manager.py`). */
module PluginManager {

  // Every plugin object loaded has an identity of its own.
  type Plugin = nat

  datatype Hook = OnLoad | OnMessage | OnSend | OnUnload

  datatype Call = Call(plugin: Plugin, hook: Hook, raised: bool)

  // What a plugin does when it is called: returns nothing of interest, asks for the
  // message to be cancelled, or raises.
  datatype Outcome = Passes | Cancels | Raises

  // `log` are the calls made so far and `next` the identity of the next plugin object.
  datatype State = State(
    maxFailures: int, plugins: seq<Plugin>, failures: map<Plugin, nat>, disabled: set<Plugin>, log: seq<Call>, next: Plugin)

  function Start(maxFailures: int): State { State(maxFailures, [], map[], {}, [], 0) }

  // ----- The operations

  function Count(s: State, p: Plugin): nat { if p in s.failures then s.failures[p] else 0 }

  function NoteFailure(s: State, p: Plugin): State {
    var count := Count(s, p) + 1;
    s.(failures := s.failures[p := count], disabled := if count >= s.maxFailures then s.disabled + {p} else s.disabled)
  }

  function Safe(s: State, p: Plugin, hook: Hook, raised: bool): State {
    var t := s.(log := s.log + [Call(p, hook, raised)]);
    if raised then NoteFailure(t, p) else t
  }

  // The first plugins get the event, unless they are disabled or lack the hook.
  function Dispatch(s: State, plugins: seq<Plugin>, hook: Hook, having: set<Plugin>, raising: set<Plugin>): State {
    if plugins == [] then s
    else
      var t, p := Dispatch(s, plugins[..|plugins| - 1], hook, having, raising), plugins[|plugins| - 1];
      if p in t.disabled || p !in having then t else Safe(t, p, hook, p in raising)
  }

  // From the last plugin to the first.
  function Unload(s: State, raising: set<Plugin>): State
    decreases |s.plugins|
  {
    if s.plugins == [] then s
    else
      var n := |s.plugins| - 1;
      Unload(Safe(s.(plugins := s.plugins[..n]), s.plugins[n], OnUnload, s.plugins[n] in raising), raising)
  }

  // A file that does not load, or one with a plugin whose `on_load` may raise.
  datatype Source = Broken | Source(raises: bool)

  function LoadOne(s: State, f: Source): State {
    if f.Broken? then s
    else
      var p := s.next;
      var t := Safe(s.(next := p + 1), p, OnLoad, f.raises);
      if f.raises then t else t.(plugins := t.plugins + [p])
  }

  function Load(s: State, files: seq<Source>): State {
    if files == [] then s else LoadOne(Load(s, files[..|files| - 1]), files[|files| - 1])
  }

  function Reload(s: State, raising: set<Plugin>, files: seq<Source>): State {
    Load(Unload(s, raising).(failures := map[], disabled := {}), files)
  }

  datatype Event =
    | Loaded(files: seq<Source>)
    | Message(raising: set<Plugin>)
    | Outgoing(having: set<Plugin>, raising: set<Plugin>)
    | Unloaded(raising: set<Plugin>)
    | Reloaded(raising: set<Plugin>, files: seq<Source>)

  function All(plugins: seq<Plugin>): set<Plugin> { set p | p in plugins }

  function Step(s: State, e: Event): State {
    match e
    case Loaded(files) => Load(s, files)
    case Message(raising) => Dispatch(s, s.plugins, OnMessage, All(s.plugins), raising)
    case Outgoing(having, raising) => Dispatch(s, s.plugins, OnSend, having, raising)
    case Unloaded(raising) => Unload(s, raising)
    case Reloaded(raising, files) => Reload(s, raising, files)
  }

  function Run(s: State, events: seq<Event>): State
    decreases |events|
  {
    if events == [] then s else Step(Run(s, events[..|events| - 1]), events[|events| - 1])
  }

  // ----- Failures are counted

  function Limit(s: State): nat { if s.maxFailures < 1 then 1 else s.maxFailures }

  // How often a plugin raised.
  function Raised(log: seq<Call>, p: Plugin): nat {
    if log == [] then 0
    else Raised(log[..|log| - 1], p) + (if log[|log| - 1].raised && log[|log| - 1].plugin == p then 1 else 0)
  }

  lemma RaisedMore(log: seq<Call>, c: Call, p: Plugin)
    ensures Raised(log + [c], p) == Raised(log, p) + (if c.raised && c.plugin == p then 1 else 0)
  {
    assert (log + [c])[..|log|] == log;
  }

  // The count is the number of times the plugin raised; it never exceeds the limit, and
  // reaches it just when the plugin is disabled.
  ghost predicate Counted(s: State, p: Plugin) {
    && Count(s, p) == Raised(s.log, p) <= Limit(s)
    && (p in s.disabled <==> Raised(s.log, p) == Limit(s))
  }

  ghost predicate Distinct(s: seq<Plugin>) { forall i, j :: 0 <= i < j < |s| ==> s[i] != s[j] }

  ghost predicate Inv(s: State) {
    && Distinct(s.plugins)
    && (forall p :: p in s.plugins ==> p < s.next && Counted(s, p))
    && (forall c :: c in s.log ==> c.plugin < s.next)
    && (forall p :: p in s.failures || p in s.disabled ==> p < s.next)
  }

  lemma SafeCounts(s: State, p: Plugin, hook: Hook, raised: bool, q: Plugin)
    ensures q != p && Counted(s, q) ==> Counted(Safe(s, p, hook, raised), q)
    ensures q == p && Counted(s, q) && q !in s.disabled ==> Counted(Safe(s, p, hook, raised), q)
  {
    RaisedMore(s.log, Call(p, hook, raised), q);
  }

  lemma {:induction false} NeverRaised(log: seq<Call>, p: Plugin)
    requires forall c :: c in log ==> c.plugin != p
    ensures Raised(log, p) == 0
  {
    if log != [] {
      NeverRaised(log[..|log| - 1], p);
    }
  }

  lemma SafeKeepsInv(s: State, p: Plugin, hook: Hook, raised: bool)
    requires Inv(s) && p < s.next && (p in s.plugins ==> p !in s.disabled)
    ensures Inv(Safe(s, p, hook, raised))
  {
    forall q | q in s.plugins ensures Counted(Safe(s, p, hook, raised), q) {
      SafeCounts(s, p, hook, raised, q);
    }
  }

  lemma {:induction false} DispatchKeepsInv(s: State, n: nat, hook: Hook, having: set<Plugin>, raising: set<Plugin>)
    requires Inv(s) && n <= |s.plugins|
    ensures var t := Dispatch(s, s.plugins[..n], hook, having, raising);
      Inv(t) && t.plugins == s.plugins && t.next == s.next && t.maxFailures == s.maxFailures
  {
    if n > 0 {
      assert s.plugins[..n][..n - 1] == s.plugins[..n - 1];
      DispatchKeepsInv(s, n - 1, hook, having, raising);
      var t, p := Dispatch(s, s.plugins[..n - 1], hook, having, raising), s.plugins[n - 1];
      assert p in s.plugins;
      if p !in t.disabled && p in having {
        SafeKeepsInv(t, p, hook, p in raising);
      }
    }
  }

  lemma {:induction false} UnloadKeepsInv(s: State, raising: set<Plugin>)
    requires Inv(s)
    ensures Inv(Unload(s, raising)) && Unload(s, raising).plugins == []
    ensures Unload(s, raising).next == s.next && Unload(s, raising).maxFailures == s.maxFailures
    decreases |s.plugins|
  {
    if s.plugins != [] {
      var n := |s.plugins| - 1;
      var t, p := s.(plugins := s.plugins[..n]), s.plugins[n];
      assert p in s.plugins && forall q :: q in t.plugins ==> q in s.plugins;
      forall q | q in t.plugins ensures q != p && Counted(t, q) {
        assert Counted(s, q);
      }
      SafeKeepsInv(t, p, OnUnload, p in raising);
      UnloadKeepsInv(Safe(t, p, OnUnload, p in raising), raising);
    }
  }

  lemma NewKeepsInv(s: State)
    requires Inv(s)
    ensures Inv(s.(next := s.next + 1))
  {
    forall q | q in s.plugins ensures Counted(s.(next := s.next + 1), q) {
      assert Counted(s, q);
    }
  }

  lemma AddKeepsInv(s: State, p: Plugin)
    requires Inv(s) && p < s.next && p !in s.plugins && Counted(s, p)
    ensures Inv(s.(plugins := s.plugins + [p]))
  {
    var t := s.(plugins := s.plugins + [p]);
    forall q | q in t.plugins ensures Counted(t, q) {
      assert Counted(s, q);
    }
  }

  lemma NewIsCounted(s: State, p: Plugin)
    requires p !in s.failures && p !in s.disabled && Raised(s.log, p) == 0
    ensures Counted(s, p)
  {}

  lemma LoadOneKeepsInv(s: State, f: Source)
    requires Inv(s)
    ensures Inv(LoadOne(s, f)) && LoadOne(s, f).maxFailures == s.maxFailures
  {
    if f.Source? {
      var p := s.next;
      var t := s.(next := p + 1);
      NewKeepsInv(s);
      SafeKeepsInv(t, p, OnLoad, f.raises);
      if !f.raises {
        var u := Safe(t, p, OnLoad, false);
        NeverRaised(s.log, p);
        RaisedMore(s.log, Call(p, OnLoad, false), p);
        NewIsCounted(u, p);
        AddKeepsInv(u, p);
      }
    }
  }

  lemma {:induction false} LoadKeepsInv(s: State, files: seq<Source>)
    requires Inv(s)
    ensures Inv(Load(s, files)) && Load(s, files).maxFailures == s.maxFailures
  {
    if files != [] {
      LoadKeepsInv(s, files[..|files| - 1]);
      LoadOneKeepsInv(Load(s, files[..|files| - 1]), files[|files| - 1]);
    }
  }

  lemma StepKeepsInv(s: State, e: Event)
    requires Inv(s)
    ensures Inv(Step(s, e)) && Step(s, e).maxFailures == s.maxFailures
  {
    assert s.plugins[..|s.plugins|] == s.plugins;
    match e
    case Loaded(files) => LoadKeepsInv(s, files);
    case Message(raising) => DispatchKeepsInv(s, |s.plugins|, OnMessage, All(s.plugins), raising);
    case Outgoing(having, raising) => DispatchKeepsInv(s, |s.plugins|, OnSend, having, raising);
    case Unloaded(raising) => UnloadKeepsInv(s, raising);
    case Reloaded(raising, files) =>
      UnloadKeepsInv(s, raising);
      LoadKeepsInv(Unload(s, raising).(failures := map[], disabled := {}), files);
  }

  // In every run a plugin that is loaded is disabled just when it raised as often as the
  // limit says, and it never raised more often.
  lemma {:induction false} RunCounts(maxFailures: int, events: seq<Event>, p: Plugin)
    ensures Inv(Run(Start(maxFailures), events)) && Run(Start(maxFailures), events).maxFailures == maxFailures
    ensures var s := Run(Start(maxFailures), events);
      p in s.plugins ==> Counted(s, p) && (p in s.disabled <==> Raised(s.log, p) == if maxFailures < 1 then 1 else maxFailures)
    decreases |events|
  {
    if events == [] {
    } else {
      RunCounts(maxFailures, events[..|events| - 1], p);
      StepKeepsInv(Run(Start(maxFailures), events[..|events| - 1]), events[|events| - 1]);
    }
  }

  // ----- Who is called

  // The calls an event makes, with what the plugins do left aside.
  function Receivers(plugins: seq<Plugin>, disabled: set<Plugin>, having: set<Plugin>): seq<Plugin> {
    if plugins == [] then []
    else
      var p := plugins[|plugins| - 1];
      Receivers(plugins[..|plugins| - 1], disabled, having) + (if p in disabled || p !in having then [] else [p])
  }

  function Calls(plugins: seq<Plugin>, hook: Hook, raising: set<Plugin>): seq<Call> {
    seq(|plugins|, i requires 0 <= i < |plugins| => Call(plugins[i], hook, plugins[i] in raising))
  }

  // Just the plugins that were not disabled before are called, in order, whoever raises.
  lemma {:induction false} DispatchCalls(s: State, n: nat, hook: Hook, having: set<Plugin>, raising: set<Plugin>)
    requires Distinct(s.plugins) && n <= |s.plugins|
    ensures var t := Dispatch(s, s.plugins[..n], hook, having, raising);
      && t.log == s.log + Calls(Receivers(s.plugins[..n], s.disabled, having), hook, raising)
      && forall p :: p in t.disabled ==> p in s.disabled || p in s.plugins[..n]
    ensures s.disabled <= Dispatch(s, s.plugins[..n], hook, having, raising).disabled
  {
    if n > 0 {
      assert s.plugins[..n][..n - 1] == s.plugins[..n - 1];
      DispatchCalls(s, n - 1, hook, having, raising);
      var t, p := Dispatch(s, s.plugins[..n - 1], hook, having, raising), s.plugins[n - 1];
      assert p !in s.plugins[..n - 1];
      var r := Receivers(s.plugins[..n - 1], s.disabled, having);
      assert Calls(r + [p], hook, raising) == Calls(r, hook, raising) + [Call(p, hook, p in raising)];
      assert r + [] == r;
    }
  }

  lemma {:induction false} ReceiversExactly(plugins: seq<Plugin>, disabled: set<Plugin>, having: set<Plugin>, p: Plugin)
    ensures p in Receivers(plugins, disabled, having) <==> p in plugins && p !in disabled && p in having
  {
    if plugins != [] {
      ReceiversExactly(plugins[..|plugins| - 1], disabled, having, p);
      assert plugins == plugins[..|plugins| - 1] + [plugins[|plugins| - 1]];
    }
  }

  lemma {:induction false} ReceiversInOrder(plugins: seq<Plugin>, disabled: set<Plugin>, having: set<Plugin>, i: nat, j: nat)
    requires i < j < |Receivers(plugins, disabled, having)|
    ensures var r := Receivers(plugins, disabled, having);
      exists a, b :: 0 <= a < b < |plugins| && plugins[a] == r[i] && plugins[b] == r[j]
  {
    var n := |plugins| - 1;
    var rest := Receivers(plugins[..n], disabled, having);
    if j < |rest| {
      ReceiversInOrder(plugins[..n], disabled, having, i, j);
      var a, b :| 0 <= a < b < n && plugins[..n][a] == rest[i] && plugins[..n][b] == rest[j];
      assert plugins[a] == rest[i] && plugins[b] == rest[j];
    } else {
      ReceiversExactly(plugins[..n], disabled, having, rest[i]);
      assert rest[i] in plugins[..n];
      var a :| 0 <= a < n && plugins[..n][a] == rest[i];
      assert plugins[a] == rest[i] && plugins[n] == Receivers(plugins, disabled, having)[j];
    }
  }

  // Calls of the given plugins that have the hook and are not disabled, each once, in order.
  ghost predicate Heard(s: State, sent: seq<Call>, hook: Hook, having: set<Plugin>, raising: set<Plugin>) {
    && (forall c :: c in sent ==>
          && c.hook == hook && (c.raised <==> c.plugin in raising)
          && c.plugin in s.plugins && c.plugin !in s.disabled && c.plugin in having)
    && (forall p :: p in s.plugins && p !in s.disabled && p in having ==> Call(p, hook, p in raising) in sent)
    && (forall i, j :: 0 <= i < j < |sent| ==>
          exists a, b :: 0 <= a < b < |s.plugins| && s.plugins[a] == sent[i].plugin && s.plugins[b] == sent[j].plugin)
  }

  lemma CallsHeard(s: State, hook: Hook, having: set<Plugin>, raising: set<Plugin>)
    ensures Heard(s, Calls(Receivers(s.plugins, s.disabled, having), hook, raising), hook, having, raising)
  {
    var r := Receivers(s.plugins, s.disabled, having);
    var sent := Calls(r, hook, raising);
    forall c | c in sent ensures c.plugin in r && c == Call(c.plugin, hook, c.plugin in raising) {
      var i :| 0 <= i < |r| && sent[i] == c;
    }
    forall p ensures p in r <==> p in s.plugins && p !in s.disabled && p in having {
      ReceiversExactly(s.plugins, s.disabled, having, p);
    }
    forall p | p in r ensures Call(p, hook, p in raising) in sent {
      var i :| 0 <= i < |r| && r[i] == p;
      assert sent[i] == Call(p, hook, p in raising);
    }
    forall i, j | 0 <= i < j < |sent|
      ensures exists a, b :: 0 <= a < b < |s.plugins| && s.plugins[a] == sent[i].plugin && s.plugins[b] == sent[j].plugin
    {
      ReceiversInOrder(s.plugins, s.disabled, having, i, j);
    }
  }

  lemma DispatchHeard(s: State, hook: Hook, having: set<Plugin>, raising: set<Plugin>)
    requires Inv(s)
    ensures var t := Dispatch(s, s.plugins, hook, having, raising);
      s.log <= t.log && t.plugins == s.plugins && Heard(s, t.log[|s.log|..], hook, having, raising)
  {
    var n := |s.plugins|;
    assert s.plugins[..n] == s.plugins;
    DispatchKeepsInv(s, n, hook, having, raising);
    DispatchCalls(s, n, hook, having, raising);
    CallsHeard(s, hook, having, raising);
  }

  // Whom a message and an outgoing message reach, whoever raises.
  lemma MessageHeard(s: State, having: set<Plugin>, raising: set<Plugin>)
    requires Inv(s)
    ensures var t := Step(s, Message(raising));
      s.log <= t.log && t.plugins == s.plugins && Heard(s, t.log[|s.log|..], OnMessage, All(s.plugins), raising)
    ensures var t := Step(s, Outgoing(having, raising));
      s.log <= t.log && t.plugins == s.plugins && Heard(s, t.log[|s.log|..], OnSend, having, raising)
  {
    DispatchHeard(s, OnMessage, All(s.plugins), raising);
    DispatchHeard(s, OnSend, having, raising);
  }

  // A file that does not load changes nothing. A plugin gets the next identity and is
  // called, and is there afterwards just if it did not raise.
  lemma LoadedExactly(s: State, f: Source)
    ensures var t := Step(s, Loaded([f]));
      if f.Broken? then t == s
      else
        && t.next == s.next + 1 && t.log == s.log + [Call(s.next, OnLoad, f.raises)]
        && t.plugins == (if f.raises then s.plugins else s.plugins + [s.next])
        && (forall p :: Count(t, p) == Count(s, p) + (if f.raises && p == s.next then 1 else 0))
        && (forall p :: p in t.disabled <==>
              p in s.disabled || (f.raises && p == s.next && Count(s, p) + 1 >= s.maxFailures))
  {
    assert [f][..0] == [] && Load(s, [f][..0]) == s;
  }

  // Files are loaded one after the other.
  lemma {:induction false} LoadedInTurn(s: State, a: seq<Source>, b: seq<Source>)
    ensures Step(s, Loaded(a + b)) == Step(Step(s, Loaded(a)), Loaded(b))
    decreases |b|
  {
    if b == [] {
      assert a + b == a;
    } else {
      LoadedInTurn(s, a, b[..|b| - 1]);
      assert (a + b)[..|a + b| - 1] == a + b[..|b| - 1];
    }
  }

  // A reload unloads all, forgets all failures, and loads the files anew.
  lemma ReloadedExactly(s: State, raising: set<Plugin>, files: seq<Source>)
    ensures var u := Step(s, Unloaded(raising));
      Step(s, Reloaded(raising, files)) == Step(u.(failures := map[], disabled := {}), Loaded(files))
  {}

  // Unloading calls all, from the last to the first, and leaves none.
  lemma {:induction false} UnloadedExactly(s: State, raising: set<Plugin>, i: nat)
    requires i < |s.plugins|
    ensures var t, n := Step(s, Unloaded(raising)), |s.plugins|;
      && t.plugins == [] && |t.log| == |s.log| + n && s.log <= t.log
      && t.log[|s.log| + i] == Call(s.plugins[n - 1 - i], OnUnload, s.plugins[n - 1 - i] in raising)
    decreases |s.plugins|
  {
    var n := |s.plugins| - 1;
    var u := Safe(s.(plugins := s.plugins[..n]), s.plugins[n], OnUnload, s.plugins[n] in raising);
    assert Step(s, Unloaded(raising)) == Step(u, Unloaded(raising));
    if n > 0 {
      UnloadedExactly(u, raising, if i == 0 then 0 else i - 1);
    }
  }

  lemma RunMore(s: State, events: seq<Event>, e: Event)
    ensures Run(s, events + [e]) == Step(Run(s, events), e)
  {
    assert (events + [e])[..|events|] == events;
  }

  // No call to the plugin is added to the log.
  ghost predicate Silent(before: seq<Call>, after: seq<Call>, p: Plugin) {
    before <= after && forall i :: |before| <= i < |after| ==> after[i].plugin != p
  }

  // A disabled plugin hears nothing more, whatever comes, until plugins are unloaded.
  lemma {:induction false} DisabledHearsNothing(s: State, events: seq<Event>, p: Plugin)
    requires Inv(s) && p in s.plugins && p in s.disabled
    requires forall e :: e in events ==> !e.Unloaded? && !e.Reloaded?
    ensures var t := Run(s, events);
      Inv(t) && p in t.plugins && p in t.disabled && Silent(s.log, t.log, p)
    decreases |events|
  {
    if events != [] {
      var n := |events| - 1;
      assert forall e :: e in events[..n] ==> e in events;
      DisabledHearsNothing(s, events[..n], p);
      var t, e := Run(s, events[..n]), events[n];
      assert e in events;
      StepKeepsInv(t, e);
      assert t.plugins[..|t.plugins|] == t.plugins;
      match e
      case Loaded(files) => LoadLeaves(t, files, p);
      case Message(raising) => DispatchLeaves(t, OnMessage, All(t.plugins), raising, p);
      case Outgoing(having, raising) => DispatchLeaves(t, OnSend, having, raising, p);
    }
  }

  lemma DispatchLeaves(s: State, hook: Hook, having: set<Plugin>, raising: set<Plugin>, p: Plugin)
    requires Inv(s) && p in s.plugins && p in s.disabled
    ensures var t := Dispatch(s, s.plugins, hook, having, raising);
      p in t.plugins && p in t.disabled && Silent(s.log, t.log, p)
  {
    var n := |s.plugins|;
    assert s.plugins[..n] == s.plugins;
    DispatchKeepsInv(s, n, hook, having, raising);
    DispatchCalls(s, n, hook, having, raising);
    ReceiversExactly(s.plugins, s.disabled, having, p);
    var r := Receivers(s.plugins, s.disabled, having);
    forall i | 0 <= i < |r| ensures Calls(r, hook, raising)[i].plugin != p {
      assert r[i] in r;
    }
  }

  lemma {:induction false} LoadLeaves(s: State, files: seq<Source>, p: Plugin)
    requires Inv(s) && p in s.plugins && p in s.disabled
    ensures var t := Load(s, files); p in t.plugins && p in t.disabled && Silent(s.log, t.log, p)
  {
    if files != [] {
      LoadLeaves(s, files[..|files| - 1], p);
      LoadKeepsInv(s, files[..|files| - 1]);
    }
  }

  // ----- `PluginManager`, updated in place

  predicate Of(outcomes: map<Plugin, Outcome>, p: Plugin, outcome: Outcome) { p in outcomes && outcomes[p] == outcome }

  function Raising(outcomes: map<Plugin, Outcome>): set<Plugin> { set p | p in outcomes && outcomes[p].Raises? }

  class PluginManager {
    const maxFailures: int
    var plugins: seq<Plugin>
    var failures: map<Plugin, nat>
    var disabled: set<Plugin>
    var log: seq<Call>
    var next: Plugin

    function Value(): State
      reads this
    {
      State(maxFailures, plugins, failures, disabled, log, next)
    }

    constructor (maxFailures: int)
      ensures Value() == Start(maxFailures)
    {
      this.maxFailures := maxFailures;
      plugins, failures, disabled, log, next := [], map[], {}, [], 0;
    }

    // `_safe` and `_safe_run`
    method SafeCall(plugin: Plugin, hook: Hook, raises: bool) returns (ok: bool)
      modifies this`failures, this`disabled, this`log
      ensures Value() == Safe(old(Value()), plugin, hook, raises) && ok == !raises
    {
      log := log + [Call(plugin, hook, raises)];
      if raises {
        NoteFailureOf(plugin);
        return false;
      }
      return true;
    }

    method NoteFailureOf(plugin: Plugin)
      modifies this`failures, this`disabled
      ensures Value() == NoteFailure(old(Value()), plugin)
    {
      var count := (if plugin in failures then failures[plugin] else 0) + 1;
      failures := failures[plugin := count];
      if count >= maxFailures && plugin !in disabled {
        disabled := disabled + {plugin};
      }
      assert plugin in disabled ==> disabled + {plugin} == disabled;
    }

    method LoadAll(files: seq<Source>)
      modifies this
      ensures Value() == Load(old(Value()), files)
    {
      for i := 0 to |files|
        invariant Value() == Load(old(Value()), files[..i])
      {
        assert files[..i + 1][..i] == files[..i];
        if files[i].Source? {
          var plugin := next;
          next := next + 1;
          var ok := SafeCall(plugin, OnLoad, files[i].raises);
          if ok {
            plugins := plugins + [plugin];
          }
        }
      }
      assert files[..|files|] == files;
    }

    method DispatchMessage(raising: set<Plugin>)
      modifies this`failures, this`disabled, this`log
      ensures Value() == Step(old(Value()), Message(raising))
    {
      ghost var having := All(plugins);
      for i := 0 to |plugins|
        invariant i <= |plugins| && Value() == Dispatch(old(Value()), plugins[..i], OnMessage, having, raising)
      {
        assert plugins[..i + 1][..i] == plugins[..i];
        if plugins[i] !in disabled {
          var _ := SafeCall(plugins[i], OnMessage, plugins[i] in raising);
        }
      }
      assert plugins[..|plugins|] == plugins;
    }

    // `cancelled` is what the simple handlers say. The message goes out unless they or a
    // plugin that was called and did not raise want it cancelled.
    method DispatchOutgoingMessage(having: set<Plugin>, outcomes: map<Plugin, Outcome>, cancelled: bool) returns (sent: bool)
      requires Distinct(plugins)
      modifies this`failures, this`disabled, this`log
      ensures Value() == Step(old(Value()), Outgoing(having, Raising(outcomes)))
      ensures sent <==> !cancelled && forall p :: p in plugins && p !in old(disabled) && p in having ==>
        p !in outcomes || outcomes[p] != Cancels
    {
      var cancels := cancelled;
      ghost var before := Value();
      var raising := Raising(outcomes);
      for i := 0 to |plugins|
        invariant i <= |plugins| && Value() == Dispatch(before, plugins[..i], OnSend, having, raising)
        invariant cancels <==> cancelled || exists p :: p in Receivers(plugins[..i], before.disabled, having) && Of(outcomes, p, Cancels)
      {
        assert plugins[..i + 1][..i] == plugins[..i];
        DispatchCalls(before, i, OnSend, having, raising);
        var p := plugins[i];
        assert p !in plugins[..i];
        if p !in disabled && p in having {
          var ok := SafeCall(p, OnSend, p in raising);
          assert p in Receivers(plugins[..i + 1], before.disabled, having);
          if ok && Of(outcomes, p, Cancels) {
            cancels := true;
          }
        }
      }
      assert plugins[..|plugins|] == plugins;
      forall p ensures p in Receivers(plugins, before.disabled, having) <==> p in plugins && p !in before.disabled && p in having {
        ReceiversExactly(plugins, before.disabled, having, p);
      }
      sent := !cancels;
    }

    method UnloadAll(raising: set<Plugin>)
      modifies this
      ensures Value() == Unload(old(Value()), raising)
    {
      while plugins != []
        invariant Unload(Value(), raising) == Unload(old(Value()), raising)
        decreases |plugins|
      {
        var plugin := plugins[|plugins| - 1];
        plugins := plugins[..|plugins| - 1];
        var _ := SafeCall(plugin, OnUnload, plugin in raising);
      }
    }

    method ReloadAll(raising: set<Plugin>, files: seq<Source>)
      modifies this
      ensures Value() == Reload(old(Value()), raising, files)
    {
      UnloadAll(raising);
      failures := map[];
      disabled := {};
      LoadAll(files);
    }
  }

  // Unloading calls every plugin once, the last one first, disabled or not.
  lemma {:induction false} UnloadCalls(s: State, raising: set<Plugin>)
    ensures Unload(s, raising).log == s.log + Calls(Reversed(s.plugins), OnUnload, raising)
    decreases |s.plugins|
  {
    if s.plugins == [] {
      assert s.log + [] == s.log;
    } else {
      var n := |s.plugins| - 1;
      var p, rest := s.plugins[n], s.plugins[..n];
      UnloadCalls(Safe(s.(plugins := rest), p, OnUnload, p in raising), raising);
      assert Calls([p] + Reversed(rest), OnUnload, raising) == [Call(p, OnUnload, p in raising)] + Calls(Reversed(rest), OnUnload, raising);
    }
  }

  function Reversed(s: seq<Plugin>): seq<Plugin> {
    if s == [] then [] else [s[|s| - 1]] + Reversed(s[..|s| - 1])
  }
}
