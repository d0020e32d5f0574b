// utils/logger.py: the AppLogger singleton over Python's `logging`. The
// `logging.Logger` it configures is kept as its level and handler list; what
// the handlers write is kept as the records reaching the console and the log
// file, without the timestamp and the formatter's layout.

module Logger {
  import opened Python

  datatype Level = Debug | Info | Warning | Error
  {
    /** The numeric values `logging` gives the levels. */
    function Value(): int {
      match this
      case Debug => 10
      case Info => 20
      case Warning => 30
      case Error => 40
    }
  }

  datatype Sink = Console | LogFile

  datatype Handler = Handler(threshold: Level, sink: Sink)

  /** The configured `logging.Logger`: its own level and its handlers in order. */
  datatype Backend = Backend(level: Level, handlers: seq<Handler>)

  datatype Record = Record(level: Level, message: string)

  /** What has been written to standard output and to `app_log.txt`. */
  datatype Outputs = Outputs(console: seq<Record>, file: seq<Record>)

  /** `_setup_logger`: level INFO, a console handler at INFO, and a file handler at
      DEBUG when the log file could be opened (`fileOk`); a failure to open it is
      swallowed. */
  function SetupBackend(fileOk: bool): (b: Backend)
    ensures b.level == Info
    ensures |b.handlers| == if fileOk then 2 else 1
    ensures b.handlers[0] == Handler(Info, Console)
    ensures fileOk ==> b.handlers[1] == Handler(Debug, LogFile)
  {
    Backend(Info, [Handler(Info, Console)] + if fileOk then [Handler(Debug, LogFile)] else [])
  }

  /** The records the handlers from `handlers` on append to `sink`. */
  function Delivered(handlers: seq<Handler>, sink: Sink, r: Record): (written: seq<Record>)
    ensures forall k :: 0 <= k < |written| ==> written[k] == r
    ensures |written| <= |handlers|
  {
    if handlers == [] then []
    else (if handlers[0].sink == sink && r.level.Value() >= handlers[0].threshold.Value() then [r] else [])
         + Delivered(handlers[1..], sink, r)
  }

  /** One logging call: nothing without a configured logger or below its level,
      otherwise each handler at or below the record's level writes it. */
  function Emit(backend: Option<Backend>, out: Outputs, level: Level, message: string): (r: Outputs)
    ensures backend.None? ==> r == out
    ensures backend.Some? && level.Value() < backend.value.level.Value() ==> r == out
    ensures |out.console| <= |r.console| && r.console[..|out.console|] == out.console
    ensures |out.file| <= |r.file| && r.file[..|out.file|] == out.file
  {
    match backend
    case None => out
    case Some(b) =>
      if level.Value() < b.level.Value() then out
      else
        var rec := Record(level, message);
        Outputs(out.console + Delivered(b.handlers, Console, rec), out.file + Delivered(b.handlers, LogFile, rec))
  }

  /** With the handlers `_setup_logger` installs, a debug message reaches neither
      output (the logger's own level stops it before the DEBUG file handler); any
      other message reaches the console once and, when the file could be opened,
      the file once. */
  lemma SetupRouting(fileOk: bool, out: Outputs, level: Level, message: string)
    ensures var r := Emit(Some(SetupBackend(fileOk)), out, level, message);
            && (level == Debug ==> r == out)
            && (level != Debug ==>
                  r.console == out.console + [Record(level, message)] &&
                  r.file == out.file + if fileOk then [Record(level, message)] else [])
  {
    var b := SetupBackend(fileOk);
    var rec := Record(level, message);
    if level != Debug {
      assert Delivered(b.handlers[1..], Console, rec) == [] by {
        if fileOk {
          assert b.handlers[1..] == [Handler(Debug, LogFile)];
        } else {
          assert b.handlers[1..] == [];
        }
      }
      if fileOk {
        assert b.handlers[1..][1..] == [];
        assert Delivered(b.handlers[1..], LogFile, rec) == [rec];
      } else {
        assert b.handlers[1..] == [];
      }
    }
  }

  /** `log_user_action`'s message. */
  function UserActionMessage(action: string, details: string): (m: string)
    ensures |m| >= 13 + |action| && m[..13] == "User Action: " && m[13..13 + |action|] == action
    ensures details == "" <==> |m| == 13 + |action|
    ensures details != "" ==> m[13 + |action|..] == " - " + details
  {
    "User Action: " + action + if details != "" then " - " + details else ""
  }

  /** `log_model_operation`'s message; `duration` is the duration already written
      with two decimals. */
  function ModelOperationMessage(modelName: string, operation: string, duration: Option<string>): (m: string)
    ensures |m| >= 11 + |modelName| + |operation| && m[..7] == "Model '" && m[7..7 + |modelName|] == modelName
    ensures m[7 + |modelName|..11 + |modelName|] == "' - "
    ensures m[11 + |modelName|..11 + |modelName| + |operation|] == operation
    ensures duration.None? <==> m[|m| - |operation|..] == operation && |m| == 11 + |modelName| + |operation|
  {
    var base := "Model '" + modelName + "' - " + operation;
    match duration
    case None => base
    case Some(d) => base + " (Duration: " + d + "s)"
  }

  /** A duration only appends " (Duration: <d>s)" to the line logged without one. */
  lemma DurationExtendsMessage(modelName: string, operation: string, d: string)
    ensures ModelOperationMessage(modelName, operation, Some(d)) ==
            ModelOperationMessage(modelName, operation, None) + " (Duration: " + d + "s)"
  {
  }

  /** Two user-action lines without details differ exactly when the actions differ. */
  lemma UserActionMessageDeterminesAction(a1: string, a2: string)
    ensures UserActionMessage(a1, "") == UserActionMessage(a2, "") <==> a1 == a2
  {
    if UserActionMessage(a1, "") == UserActionMessage(a2, "") {
      var m := UserActionMessage(a1, "");
      assert a1 == m[13..] == a2;
    }
  }

  class AppLogger {
    /** `_logger`; None until `_setup_logger` has run. */
    var backend: Option<Backend>
    var out: Outputs

    constructor ()
      ensures backend == None && out == Outputs([], [])
    {
      backend := None;
      out := Outputs([], []);
    }

    /** `__init__`: set up only while there is no logger. */
    method Init(fileOk: bool)
      modifies this
      ensures old(backend).None? ==> backend == Some(SetupBackend(fileOk))
      ensures old(backend).Some? ==> backend == old(backend)
      ensures out == old(out)
    {
      if backend.None? {
        backend := Some(SetupBackend(fileOk));
      }
    }

    method Log(level: Level, message: string)
      modifies this
      ensures out == Emit(old(backend), old(out), level, message)
      ensures backend == old(backend)
    {
      out := Emit(backend, out, level, message);
    }

    method InfoMessage(message: string)
      modifies this
      ensures out == Emit(old(backend), old(out), Info, message) && backend == old(backend)
    {
      Log(Info, message);
    }

    method ErrorMessage(message: string)
      modifies this
      ensures out == Emit(old(backend), old(out), Error, message) && backend == old(backend)
    {
      Log(Error, message);
    }

    method WarningMessage(message: string)
      modifies this
      ensures out == Emit(old(backend), old(out), Warning, message) && backend == old(backend)
    {
      Log(Warning, message);
    }

    method DebugMessage(message: string)
      modifies this
      ensures out == Emit(old(backend), old(out), Debug, message) && backend == old(backend)
    {
      Log(Debug, message);
    }

    method LogModelOperation(modelName: string, operation: string, duration: Option<string>)
      modifies this
      ensures out == Emit(old(backend), old(out), Info, ModelOperationMessage(modelName, operation, duration))
      ensures backend == old(backend)
    {
      InfoMessage(ModelOperationMessage(modelName, operation, duration));
    }

    method LogUserAction(action: string, details: string)
      modifies this
      ensures out == Emit(old(backend), old(out), Info, UserActionMessage(action, details))
      ensures backend == old(backend)
    {
      InfoMessage(UserActionMessage(action, details));
    }
  }

  /** The class object `AppLogger` and its class attribute `_instance`. */
  class AppLoggerClass {
    var instance: AppLogger?

    constructor ()
      ensures instance == null
    {
      instance := null;
    }

    /** `AppLogger()`: `__new__` creates the instance once, then `__init__` runs
        on whichever instance it returns. */
    method Call(fileOk: bool) returns (l: AppLogger)
      modifies this, instance
      ensures l == instance
      ensures old(instance) != null ==> l == old(instance)
      ensures old(instance) == null ==> fresh(l) && l.backend == Some(SetupBackend(fileOk)) && l.out == Outputs([], [])
      ensures old(instance) != null && old(instance.backend).Some? ==>
                l.backend == old(instance.backend) && l.out == old(instance.out)
    {
      if instance == null {
        instance := new AppLogger();
      }
      l := instance;
      l.Init(fileOk);
    }
  }

  /** Calling `AppLogger()` twice gives the same object, configured once: the
      second call does not add handlers or reopen the file. */
  method SingletonScenario(fileOk1: bool, fileOk2: bool) returns (a: AppLogger, b: AppLogger)
    ensures a == b
    ensures b.backend == Some(SetupBackend(fileOk1))
  {
    var cls := new AppLoggerClass();
    a := cls.Call(fileOk1);
    b := cls.Call(fileOk2);
  }
}
