/** The adapter's options: folded over the defaults, last one wins, then clamped; and what the clamping
    guarantees about when a stuck partition can and must stop the consumer. */
module Options {
  import opened Prelude
  import opened PollErrors
  import opened PollHistory

  const MILLISECOND := 1_000_000
  const DEFAULT_LOG_INTERVAL := SECOND
  const DEFAULT_BAIL_AFTER := 10 * MINUTE
  const MIN_BAIL_AFTER := MINUTE
  const MAX_BAIL_AFTER := HOUR
  const DEFAULT_BACKOFF := 25 * MILLISECOND
  const MAX_BACKOFF := 5 * SECOND

  /** The verbosity of franz-go's own log. */
  datatype LogLevel = LevelNone | LevelError | LevelWarn | LevelInfo | LevelDebug

  datatype AdapterOption =
    | PollErrorLogInterval(d: int)
    | PollErrorBailAfter(d: int)
    | PollErrorBackoff(d: int)
    | AssignmentOffsetLookup(enabled: bool)
    | ClientLogLevel(level: LogLevel)

  datatype Resolved = Resolved(logInterval: int, bailAfter: int, backoff: int, offsetLookup: bool, logLevel: LogLevel)

  const Defaults := Resolved(DEFAULT_LOG_INTERVAL, DEFAULT_BAIL_AFTER, DEFAULT_BACKOFF, true, LevelInfo)

  function ClampBailAfter(d: int): int {
    if d <= 0 then 0
    else if d < MIN_BAIL_AFTER then MIN_BAIL_AFTER
    else if d > MAX_BAIL_AFTER then MAX_BAIL_AFTER
    else d
  }

  function ClampBackoff(d: int): int {
    if d <= 0 then 0 else if d > MAX_BACKOFF then MAX_BACKOFF else d
  }

  function Distance(a: int, b: int): nat {
    if a <= b then b - a else a - b
  }

  /** A positive setting becomes the nearest admissible one; any other disables. */
  lemma ClampIsNearest(d: int, other: int)
    requires MIN_BAIL_AFTER <= other <= MAX_BAIL_AFTER
    ensures d > 0 ==> MIN_BAIL_AFTER <= ClampBailAfter(d) <= MAX_BAIL_AFTER
                      && Distance(ClampBailAfter(d), d) <= Distance(other, d)
    ensures ClampBailAfter(d) == 0 <==> d <= 0
    ensures ClampBackoff(ClampBackoff(d)) == ClampBackoff(d)
  {
  }

  /** So does the backoff, whose admissible settings reach down to zero. */
  lemma BackoffIsNearest(d: int, other: int)
    requires 0 < other <= MAX_BACKOFF
    ensures d > 0 ==> 0 < ClampBackoff(d) <= MAX_BACKOFF && Distance(ClampBackoff(d), d) <= Distance(other, d)
    ensures ClampBackoff(d) == 0 <==> d <= 0
    ensures ClampBailAfter(ClampBailAfter(d)) == ClampBailAfter(d)
  {
  }

  function Set(r: Resolved, o: Option<AdapterOption>): Resolved {
    match o
    case None => r
    case Some(PollErrorLogInterval(d)) => r.(logInterval := d)
    case Some(PollErrorBailAfter(d)) => r.(bailAfter := d)
    case Some(PollErrorBackoff(d)) => r.(backoff := d)
    case Some(AssignmentOffsetLookup(enabled)) => r.(offsetLookup := enabled)
    case Some(ClientLogLevel(level)) => r.(logLevel := level)
  }

  function Fold(options: seq<Option<AdapterOption>>): Resolved {
    if options == [] then Defaults else Set(Fold(options[..|options| - 1]), options[|options| - 1])
  }

  function Validated(r: Resolved): Resolved {
    r.(logInterval := if r.logInterval <= 0 then DEFAULT_LOG_INTERVAL else r.logInterval,
       bailAfter := ClampBailAfter(r.bailAfter),
       backoff := ClampBackoff(r.backoff))
  }

  function Resolve(options: seq<Option<AdapterOption>>): Resolved {
    Validated(Fold(options))
  }

  /** adapterOptions, changed in place by the With* closures and by validate. */
  class AdapterOptions {
    var pollErrorLogInterval: int
    var pollErrorBailAfter: int
    var pollErrorBackoff: int
    var assignmentOffsetLookup: bool
    var clientLogLevel: LogLevel

    function Value(): Resolved
      reads this
    {
      Resolved(pollErrorLogInterval, pollErrorBailAfter, pollErrorBackoff, assignmentOffsetLookup, clientLogLevel)
    }

    constructor ()
      ensures Value() == Defaults
    {
      pollErrorLogInterval := DEFAULT_LOG_INTERVAL;
      pollErrorBailAfter := DEFAULT_BAIL_AFTER;
      pollErrorBackoff := DEFAULT_BACKOFF;
      assignmentOffsetLookup := true;
      clientLogLevel := LevelInfo;
    }

    method Apply(o: AdapterOption)
      modifies this
      ensures Value() == Set(old(Value()), Some(o))
    {
      match o {
        case PollErrorLogInterval(d) => pollErrorLogInterval := d;
        case PollErrorBailAfter(d) => pollErrorBailAfter := d;
        case PollErrorBackoff(d) => pollErrorBackoff := d;
        case AssignmentOffsetLookup(enabled) => assignmentOffsetLookup := enabled;
        case ClientLogLevel(level) => clientLogLevel := level;
      }
    }

    method Validate()
      modifies this
      ensures Value() == Validated(old(Value()))
    {
      if pollErrorLogInterval <= 0 {
        pollErrorLogInterval := DEFAULT_LOG_INTERVAL;
      }
      pollErrorBailAfter := ClampBailAfter(pollErrorBailAfter);
      pollErrorBackoff := ClampBackoff(pollErrorBackoff);
    }
  }

  /** processAdapterOptions; a nil option is skipped. */
  method ProcessAdapterOptions(options: seq<Option<AdapterOption>>) returns (r: Resolved)
    ensures r == Resolve(options)
  {
    var o := new AdapterOptions();
    for i := 0 to |options|
      invariant fresh(o) && o.Value() == Fold(options[..i])
    {
      assert options[..i + 1][..i] == options[..i];
      if options[i].Some? {
        o.Apply(options[i].value);
      }
    }
    assert options[..|options|] == options;
    o.Validate();
    r := o.Value();
  }

  /** Two options of the same kind. */
  predicate SameKind(a: AdapterOption, b: AdapterOption) {
    match a
    case PollErrorLogInterval(_) => b.PollErrorLogInterval?
    case PollErrorBailAfter(_) => b.PollErrorBailAfter?
    case PollErrorBackoff(_) => b.PollErrorBackoff?
    case AssignmentOffsetLookup(_) => b.AssignmentOffsetLookup?
    case ClientLogLevel(_) => b.ClientLogLevel?
  }

  /** No option from `i` on is of the kind of `a`. */
  predicate NoneFrom(options: seq<Option<AdapterOption>>, i: nat, a: AdapterOption) {
    forall j | i <= j < |options| :: options[j].None? || !SameKind(a, options[j].value)
  }

  /** What the resolved options say where `a` is the setting that counts. */
  predicate Honours(r: Resolved, a: AdapterOption) {
    match a
    case PollErrorLogInterval(d) => r.logInterval == d
    case PollErrorBailAfter(d) => r.bailAfter == d
    case PollErrorBackoff(d) => r.backoff == d
    case AssignmentOffsetLookup(enabled) => r.offsetLookup == enabled
    case ClientLogLevel(level) => r.logLevel == level
  }

  lemma {:induction false} FoldHonoursLast(options: seq<Option<AdapterOption>>, i: nat, a: AdapterOption)
    requires i < |options| && options[i] == Some(a) && NoneFrom(options, i + 1, a)
    ensures Honours(Fold(options), a)
    decreases |options|
  {
    if |options| > i + 1 {
      FoldHonoursLast(options[..|options| - 1], i, a);
    }
  }

  /** The last setting of each kind is the one that counts, clamped or defaulted as its kind demands. */
  lemma LastSettingWins(options: seq<Option<AdapterOption>>, i: nat, a: AdapterOption)
    requires i < |options| && options[i] == Some(a) && NoneFrom(options, i + 1, a)
    ensures a.PollErrorLogInterval? && a.d > 0 ==> Resolve(options).logInterval == a.d
    ensures a.PollErrorLogInterval? && a.d <= 0 ==> Resolve(options).logInterval == SECOND
    ensures a.PollErrorBailAfter? ==> Resolve(options).bailAfter == ClampBailAfter(a.d)
    ensures a.PollErrorBackoff? ==> Resolve(options).backoff == ClampBackoff(a.d)
    ensures a.AssignmentOffsetLookup? ==> Resolve(options).offsetLookup == a.enabled
    ensures a.ClientLogLevel? ==> Resolve(options).logLevel == a.level
  {
    FoldHonoursLast(options, i, a);
  }

  /** A kind that is never set. */
  lemma {:induction false} FoldKeepsDefault(options: seq<Option<AdapterOption>>, a: AdapterOption)
    requires NoneFrom(options, 0, a) && Honours(Defaults, a)
    ensures Honours(Fold(options), a)
    decreases |options|
  {
    if options != [] {
      FoldKeepsDefault(options[..|options| - 1], a);
    }
  }

  /** Without a setting of a kind: one second between repeated lines, a bail at ten minutes, a backoff of
      25 milliseconds, the lookup on, the client's log at info. */
  lemma DefaultsStand(options: seq<Option<AdapterOption>>)
    ensures NoneFrom(options, 0, PollErrorLogInterval(SECOND)) ==> Resolve(options).logInterval == SECOND
    ensures NoneFrom(options, 0, PollErrorBailAfter(10 * MINUTE)) ==> Resolve(options).bailAfter == 10 * MINUTE
    ensures NoneFrom(options, 0, PollErrorBackoff(25 * MILLISECOND)) ==> Resolve(options).backoff == 25 * MILLISECOND
    ensures NoneFrom(options, 0, AssignmentOffsetLookup(true)) ==> Resolve(options).offsetLookup
    ensures NoneFrom(options, 0, ClientLogLevel(LevelInfo)) ==> Resolve(options).logLevel == LevelInfo
  {
    if NoneFrom(options, 0, PollErrorLogInterval(SECOND)) {
      FoldKeepsDefault(options, PollErrorLogInterval(SECOND));
    }
    if NoneFrom(options, 0, PollErrorBailAfter(10 * MINUTE)) {
      FoldKeepsDefault(options, PollErrorBailAfter(10 * MINUTE));
    }
    if NoneFrom(options, 0, PollErrorBackoff(25 * MILLISECOND)) {
      FoldKeepsDefault(options, PollErrorBackoff(25 * MILLISECOND));
    }
    if NoneFrom(options, 0, AssignmentOffsetLookup(true)) {
      FoldKeepsDefault(options, AssignmentOffsetLookup(true));
    }
    if NoneFrom(options, 0, ClientLogLevel(LevelInfo)) {
      FoldKeepsDefault(options, ClientLogLevel(LevelInfo));
    }
  }

  function SettingsFrom(r: Resolved): Settings {
    Settings(r.logInterval, r.bailAfter)
  }

  lemma FailingForLess(h: History, key: string, d: int, d': int)
    requires d' <= d && FailingFor(h, key, d)
    ensures FailingFor(h, key, d')
  {
  }

  /** Whatever the options, no partition's errors stop the consumer before it has been failing for a
      minute; and if the bail is enabled at all, one that has failed for an hour does. */
  lemma OptionsBoundTheBail(options: seq<Option<AdapterOption>>, h: History, o: Observation)
    requires Monotone(h + [o])
    ensures var s := SettingsFrom(Resolve(options));
            && (Bails(s, h, o) ==> exists key :: FailingFor(h + [o], key, MINUTE))
            && (s.bailAfter > 0 && (exists key :: FailingFor(h + [o], key, HOUR)) ==> Bails(s, h, o))
  {
    var s := SettingsFrom(Resolve(options));
    ClampIsNearest(Fold(options).bailAfter, MIN_BAIL_AFTER);
    if Bails(s, h, o) {
      var i := BailNamesStuck(s, h, o);
      FailingForLess(h + [o], KeyOf(o.errors[i].at), s.bailAfter, MINUTE);
    }
    if s.bailAfter > 0 && exists key :: FailingFor(h + [o], key, HOUR) {
      var key :| FailingFor(h + [o], key, HOUR);
      FailingForLess(h + [o], key, HOUR, s.bailAfter);
      StuckBails(s, h, o, key);
    }
  }
}
