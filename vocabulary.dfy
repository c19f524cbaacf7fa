/**
 * The command vocabulary of the remote control: the closed set of action
 * names, the table that maps a name to its handler, and what each handler
 * asks of the shared timer.
 */
module Vocabulary {
  import opened Options
  import opened Timer

  /** The `Action` enum; each value is the name used on the wire. */
  datatype Action =
    | StartAction
    | SplitAction
    | SplitOrStartAction
    | ResetAction
    | TogglePauseAction
    | UndoAction
    | SkipAction
    | InitGameTimeAction
    | SetGameTimeAction
    | SetLoadingTimesAction
    | PauseGameTimeAction
    | ResumeGameTimeAction

  /** The enum's string value: a non-empty word of lower-case letters. */
  function WireName(a: Action): (name: string)
    ensures |name| > 0
    ensures forall i :: 0 <= i < |name| ==> 'a' <= name[i] <= 'z'
  {
    match a
    case StartAction => "start"
    case SplitAction => "split"
    case SplitOrStartAction => "splitorstart"
    case ResetAction => "reset"
    case TogglePauseAction => "togglepause"
    case UndoAction => "undo"
    case SkipAction => "skip"
    case InitGameTimeAction => "initgametime"
    case SetGameTimeAction => "setgametime"
    case SetLoadingTimesAction => "setloadingtimes"
    case PauseGameTimeAction => "pausegametime"
    case ResumeGameTimeAction => "resumegametime"
  }

  /** `ACTION_HANDLER_MAP`: each own key names the handler it is bound to. */
  function HandlerTable(): (table: map<string, Action>)
    ensures forall a: Action :: WireName(a) in table && table[WireName(a)] == a
    ensures forall name :: name in table ==> WireName(table[name]) == name
  {
    map[
      "start" := StartAction,
      "split" := SplitAction,
      "splitorstart" := SplitOrStartAction,
      "reset" := ResetAction,
      "togglepause" := TogglePauseAction,
      "undo" := UndoAction,
      "skip" := SkipAction,
      "initgametime" := InitGameTimeAction,
      "setgametime" := SetGameTimeAction,
      "setloadingtimes" := SetLoadingTimesAction,
      "pausegametime" := PauseGameTimeAction,
      "resumegametime" := ResumeGameTimeAction
    ]
  }

  /**
   * The handler lookup of the dispatcher, restricted to the table's own
   * entries: a name finds a handler exactly when it is the wire name of an
   * action, and then it finds that action's handler.
   */
  function Lookup(name: string): (h: Option<Action>)
    ensures h.Some? ==> WireName(h.value) == name
    ensures h.None? <==> forall a: Action :: WireName(a) != name
  {
    if name in HandlerTable() then Some(HandlerTable()[name]) else None
  }

  /** The names every plain JavaScript object inherits from `Object.prototype`. */
  const ObjectPrototypeNames: set<string> := {
    "constructor", "hasOwnProperty", "isPrototypeOf", "propertyIsEnumerable",
    "toLocaleString", "toString", "valueOf", "__defineGetter__", "__defineSetter__",
    "__lookupGetter__", "__lookupSetter__", "__proto__"
  }

  /**
   * The inherited names whose lookup-and-call raises a TypeError:
   * `__proto__` yields `Object.prototype`, which has no `bind`, and the two
   * `__define...__` members demand a function where the wire only delivers
   * strings (or nothing).
   */
  const FaultingPrototypeNames: set<string> := {"__proto__", "__defineGetter__", "__defineSetter__"}

  /** What `ACTION_HANDLER_MAP[name]` yields on a plain object literal. */
  datatype TableEntry = OwnHandler(action: Action) | Inherited(faults: bool) | Missing

  /**
   * The lookup as the source writes it: an own entry first, otherwise the
   * member the object inherits from `Object.prototype`, otherwise
   * `undefined`. It agrees with `Lookup` on every own entry.
   */
  function LookupAsWritten(name: string): (e: TableEntry)
    ensures e.OwnHandler? <==> Lookup(name).Some?
    ensures e.OwnHandler? ==> Lookup(name) == Some(e.action)
    ensures e.Inherited? <==> Lookup(name).None? && name in ObjectPrototypeNames
  {
    if name in HandlerTable() then OwnHandler(HandlerTable()[name])
    else if name in ObjectPrototypeNames then Inherited(name in FaultingPrototypeNames)
    else Missing
  }

  /**
   * The discrepancy: `__proto__` is no action name, yet as written its
   * lookup finds an inherited member whose use raises a TypeError out of
   * the message handler, where an unknown name should be a silent no-op.
   */
  lemma PrototypeNameFaults()
    ensures Lookup("__proto__").None?
    ensures LookupAsWritten("__proto__") == Inherited(true)
    ensures Lookup("__defineGetter__").None? && LookupAsWritten("__defineGetter__") == Inherited(true)
    ensures Lookup("__defineSetter__").None? && LookupAsWritten("__defineSetter__") == Inherited(true)
    ensures Lookup("toString").None? && LookupAsWritten("toString") == Inherited(false)
  {
  }

  /** Every action is in the table, under its own wire name. */
  lemma LookupWireName(a: Action)
    ensures Lookup(WireName(a)) == Some(a)
  {
  }

  /** No two actions share a wire name. */
  lemma WireNameInjective(a: Action, b: Action)
    requires WireName(a) == WireName(b)
    ensures a == b
  {
  }

  /** The two handlers that parse a duration argument before writing. */
  predicate ParsesDuration(a: Action) {
    a == SetGameTimeAction || a == SetLoadingTimesAction
  }

  /** The action whose handler asks for a given timer operation. */
  function Requester(op: TimerOp): Action
  {
    match op
    case Start => StartAction
    case Split => SplitAction
    case SplitOrStart => SplitOrStartAction
    case Reset(_) => ResetAction
    case TogglePauseOrStart => TogglePauseAction
    case UndoSplit => UndoAction
    case SkipSplit => SkipAction
    case InitializeGameTime => InitGameTimeAction
    case SetGameTime(_) => SetGameTimeAction
    case SetLoadingTimes(_) => SetLoadingTimesAction
    case PauseGameTime => PauseGameTimeAction
    case ResumeGameTime => ResumeGameTimeAction
  }

  /**
   * The one `writeWith` a handler performs, if any, given its positional
   * arguments and the engine's duration parser. Arguments past the ones a
   * handler declares are ignored, as JavaScript ignores them.
   */
  function HandlerWrite(a: Action, args: seq<string>, parse: string -> Option<TimeSpan>): (w: Option<TimerOp>)
    ensures w.Some? ==> Requester(w.value) == a
    ensures w.None? <==> ParsesDuration(a) && (|args| == 0 || parse(args[0]).None?)
    ensures w.Some? && ParsesDuration(a) ==> w.value.time == parse(args[0]).value
  {
    match a
    case StartAction => Some(Start)
    case SplitAction => Some(Split)
    case SplitOrStartAction => Some(SplitOrStart)
    case ResetAction => Some(Reset(true))
    case TogglePauseAction => Some(TogglePauseOrStart)
    case UndoAction => Some(UndoSplit)
    case SkipAction => Some(SkipSplit)
    case InitGameTimeAction => Some(InitializeGameTime)
    case SetGameTimeAction =>
      if |args| == 0 then None
      else (match parse(args[0]) case None => None case Some(t) => Some(SetGameTime(t)))
    case SetLoadingTimesAction =>
      if |args| == 0 then None
      else (match parse(args[0]) case None => None case Some(t) => Some(SetLoadingTimes(t)))
    case PauseGameTimeAction => Some(PauseGameTime)
    case ResumeGameTimeAction => Some(ResumeGameTime)
  }

  /**
   * The ten handlers without an argument always write, and what they write
   * depends on neither the arguments nor the parser; `reset` asks the
   * timer to update the splits.
   */
  lemma FixedHandlersIgnoreArguments(a: Action, args1: seq<string>, args2: seq<string>,
                                     parse1: string -> Option<TimeSpan>, parse2: string -> Option<TimeSpan>)
    requires !ParsesDuration(a)
    ensures HandlerWrite(a, args1, parse1).Some?
    ensures HandlerWrite(a, args1, parse1) == HandlerWrite(a, args2, parse2)
    ensures a == ResetAction ==> HandlerWrite(a, args1, parse1) == Some(Reset(true))
  {
  }

  /** What dispatching a name asks of the timer: nothing unless the name is in the table. */
  function DispatchWrite(name: string, args: seq<string>, parse: string -> Option<TimeSpan>): (w: Option<TimerOp>)
    ensures Lookup(name).None? ==> w.None?
    ensures w.Some? ==> WireName(Requester(w.value)) == name
    ensures forall a: Action :: WireName(a) == name ==> w == HandlerWrite(a, args, parse)
  {
    match Lookup(name)
    case None => None
    case Some(a) => HandlerWrite(a, args, parse)
  }
}
