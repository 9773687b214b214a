/** The calculator's settings record: loading it from the saved record with
    per-field defaults, and merging a partial update into it. */
module Config {

  /** A JavaScript value as it can appear in the parsed saved record or be
      written into it. Finite numbers are integers here. */
  datatype JsValue =
    | Undefined
    | Null
    | Bool(b: bool)
    | Num(n: int)
    | NaN
    | Infinity(negative: bool)
    | Str(s: string)
    | Object

  /** JavaScript truthiness, as `||` tests it. */
  predicate Truthy(v: JsValue) {
    match v
    case Undefined => false
    case Null => false
    case Bool(b) => b
    case Num(n) => n != 0
    case NaN => false
    case Infinity(_) => true
    case Str(s) => s != ""
    case Object => true
  }

  /** `Number.isFinite(v)`: a number that is neither NaN nor infinite; no
      other kind of value passes. */
  predicate IsFinite(v: JsValue) {
    v.Num?
  }

  /** Reading a property of the parsed record: a missing key reads as `undefined`. */
  function Lookup(saved: map<string, JsValue>, name: string): JsValue {
    if name in saved then saved[name] else Undefined
  }

  /** The settings the calculator works with. */
  datatype Settings = Settings(theme: JsValue, sleepLatency: int, cycleLength: int, numOptions: int)

  /** The settings keys, in the order the record lists them. */
  datatype Key = Theme | SleepLatency | CycleLength | NumOptions

  function Name(k: Key): string {
    match k
    case Theme => "theme"
    case SleepLatency => "sleepLatency"
    case CycleLength => "cycleLength"
    case NumOptions => "numOptions"
  }

  /** The value a settings record holds under key `k`. */
  function Get(s: Settings, k: Key): JsValue {
    match k
    case Theme => s.theme
    case SleepLatency => Num(s.sleepLatency)
    case CycleLength => Num(s.cycleLength)
    case NumOptions => Num(s.numOptions)
  }

  /** A fresh install: system theme, 15 minutes to fall asleep, 90-minute
      cycles and ten options. */
  function Defaults(): Settings {
    Settings(Str("system"), 15, 90, 10)
  }

  /** Whether `loadSettings` keeps a saved value for key `k`: the theme when
      it is truthy, the numbers when they are finite. */
  predicate Keeps(k: Key, v: JsValue) {
    if k == Theme then Truthy(v) else IsFinite(v)
  }

  /** `loadSettings` once the stored text has been parsed into `saved`. */
  function LoadSettings(saved: map<string, JsValue>): (r: Settings)
    ensures forall k: Key ::
      Get(r, k) == if Keeps(k, Lookup(saved, Name(k))) then Lookup(saved, Name(k)) else Get(Defaults(), k)
    ensures Truthy(r.theme)
  {
    var theme := Lookup(saved, "theme");
    var sleepLatency := Lookup(saved, "sleepLatency");
    var cycleLength := Lookup(saved, "cycleLength");
    var numOptions := Lookup(saved, "numOptions");
    Settings(
      if Truthy(theme) then theme else Str("system"),
      if IsFinite(sleepLatency) then sleepLatency.n else 15,
      if IsFinite(cycleLength) then cycleLength.n else 90,
      if IsFinite(numOptions) then numOptions.n else 10)
  }

  /** What `JSON.stringify` followed by `JSON.parse` makes of a value: NaN
      and the infinities become `null`; every other value comes back as it
      was (an `undefined` property is dropped, see `Stored`). */
  function Serialized(v: JsValue): JsValue {
    if v.NaN? || v.Infinity? then Null else v
  }

  /** The record `saveSettings` writes, as the next start parses it: the
      three numbers under their names, and the theme unless it is
      `undefined`, which `JSON.stringify` leaves out. */
  function Stored(s: Settings): (r: map<string, JsValue>)
    ensures forall k: Key :: k != Theme ==> Name(k) in r && r[Name(k)] == Get(s, k)
    ensures Lookup(r, Name(Theme)) == Serialized(s.theme)
    ensures r.Keys == {Name(SleepLatency), Name(CycleLength), Name(NumOptions)}
                      + (if s.theme.Undefined? then {} else {Name(Theme)})
  {
    var numbers := map["sleepLatency" := Num(s.sleepLatency), "cycleLength" := Num(s.cycleLength),
                       "numOptions" := Num(s.numOptions)];
    if s.theme.Undefined? then numbers else numbers["theme" := Serialized(s.theme)]
  }

  /** Nothing saved yet yields the defaults. */
  lemma LoadNothing()
    ensures LoadSettings(map[]) == Defaults()
  {
  }

  /** Reloading what was saved gives back the same settings exactly when
      the theme is truthy and not infinite; any other theme comes back as
      "system". */
  lemma LoadStored(s: Settings)
    ensures LoadSettings(Stored(s)) == s <==> Truthy(s.theme) && !s.theme.Infinity?
    ensures LoadSettings(Stored(s))
         == if Truthy(Serialized(s.theme)) then s else s.(theme := Str("system"))
  {
  }

  /** A partial update: `Some` for the keys the update object carries. */
  datatype Patch = Patch(theme: Option<JsValue>, sleepLatency: Option<int>,
                         cycleLength: Option<int>, numOptions: Option<int>)

  datatype Option<T> = None | Some(value: T)

  /** The value a patch carries for key `k`, if any. */
  function PatchGet(p: Patch, k: Key): Option<JsValue> {
    match k
    case Theme => p.theme
    case SleepLatency => if p.sleepLatency.Some? then Some(Num(p.sleepLatency.value)) else None
    case CycleLength => if p.cycleLength.Some? then Some(Num(p.cycleLength.value)) else None
    case NumOptions => if p.numOptions.Some? then Some(Num(p.numOptions.value)) else None
  }

  /** `{ ...s, ...p }`: the keys `p` carries take its values, every other key
      keeps the value it had. */
  function Merge(s: Settings, p: Patch): (r: Settings)
    ensures forall k: Key :: Get(r, k) == if PatchGet(p, k).Some? then PatchGet(p, k).value else Get(s, k)
  {
    Settings(
      if p.theme.Some? then p.theme.value else s.theme,
      if p.sleepLatency.Some? then p.sleepLatency.value else s.sleepLatency,
      if p.cycleLength.Some? then p.cycleLength.value else s.cycleLength,
      if p.numOptions.Some? then p.numOptions.value else s.numOptions)
  }
}
