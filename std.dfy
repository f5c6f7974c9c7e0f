/**
 * The package-level API of logx: the default Logger `std`, configured once
 * at initialisation, and the functions that delegate to it. Info(v...)
 * and its siblings format their arguments with one "%v" verb per
 * argument; Infof(format, v...) and its siblings pass the caller's
 * format through unchanged.
 */
module Std {
  import opened Severity
  import opened Logx

  /** "%v" repeated n times. */
  function Verbs(n: nat): string
    decreases n
  {
    if n == 0 then "" else Verbs(n - 1) + "%v"
  }

  /** Verbs(n) is n back-to-back "%v" verbs and nothing else. */
  lemma {:induction false} VerbsShape(n: nat)
    ensures |Verbs(n)| == 2 * n
    ensures forall k :: 0 <= k < n ==> Verbs(n)[2 * k..2 * k + 2] == "%v"
    ensures Verbs(0) == "" && Verbs(1) == "%v"
    decreases n
  {
    if n > 0 {
      VerbsShape(n - 1);
      var s, p := Verbs(n), Verbs(n - 1);
      assert s == p + "%v";
      forall k | 0 <= k < n ensures s[2 * k..2 * k + 2] == "%v" {
        if k < n - 1 {
          assert s[2 * k..2 * k + 2] == p[2 * k..2 * k + 2];
        } else {
          assert s[2 * k..2 * k + 2] == s[|p|..];
        }
      }
    }
    assert Verbs(1) == "" + "%v";
  }

  /** getFormat: appends "%v" once per argument; a negative count gives the empty format. */
  method GetFormat(length: int) returns (s: string)
    ensures s == Verbs(if length > 0 then length else 0)
  {
    s := "";
    var i := 0;
    while i < length
      invariant 0 <= i && (length > 0 ==> i <= length) && (length <= 0 ==> i == 0)
      invariant s == Verbs(i)
    {
      s := s + "%v";
      i := i + 1;
    }
  }

  /** The package's global state: the default Logger. */
  class Package {
    var std: Logger

    /** init: New() with level Test, colour on, one more call-depth frame, standard output and the standard flags. */
    constructor Init(stdout: Writer)
      ensures fresh(std)
      ensures std.Get() == Settings(stdout, LevelTest, StdFlags, 3, "", true, LogFormatText)
    {
      var l := new Logger.New([]);
      l := l.SetLevel(LevelTest);
      l := l.SetColor(true);
      l := l.SetCallDepthPlus();
      l := l.SetWriter(stdout);
      l := l.SetFlag(StdFlags);
      std := l;
    }

    /** SetColor: sets std's colour and returns std. */
    method SetColor(color: bool) returns (r: Logger)
      modifies std
      ensures r == std && std.Get() == old(std.Get()).(color := color)
    {
      var _ := std.SetColor(color);
      r := std;
    }

    /** SetWriter: sets std's writer and returns std. */
    method SetWriter(w: Writer?) returns (r: Logger)
      modifies std
      ensures r == std && std.Get() == old(std.Get()).(w := w)
    {
      var _ := std.SetWriter(w);
      r := std;
    }

    method Info(v: seq<Arg>, env: Env) returns (outcome: Outcome)
      modifies std.w
      ensures std.Logged(LevelInfo, env.sprintf(Verbs(|v|), v), env,
                         if std.w == null then [] else old(std.w.writes), outcome, Returned)
    {
      var format := GetFormat(|v|);
      outcome := std.Info(format, v, env);
    }

    method Debug(v: seq<Arg>, env: Env) returns (outcome: Outcome)
      modifies std.w
      ensures std.Logged(LevelDebug, env.sprintf(Verbs(|v|), v), env,
                         if std.w == null then [] else old(std.w.writes), outcome, Returned)
    {
      var format := GetFormat(|v|);
      outcome := std.Debug(format, v, env);
    }

    method Error(v: seq<Arg>, env: Env) returns (outcome: Outcome)
      modifies std.w
      ensures std.Logged(LevelError, env.sprintf(Verbs(|v|), v), env,
                         if std.w == null then [] else old(std.w.writes), outcome, Returned)
    {
      var format := GetFormat(|v|);
      outcome := std.Error(format, v, env);
    }

    method Warn(v: seq<Arg>, env: Env) returns (outcome: Outcome)
      modifies std.w
      ensures std.Logged(LevelWarn, env.sprintf(Verbs(|v|), v), env,
                         if std.w == null then [] else old(std.w.writes), outcome, Returned)
    {
      var format := GetFormat(|v|);
      outcome := std.Warn(format, v, env);
    }

    method Fatal(v: seq<Arg>, env: Env) returns (outcome: Outcome)
      modifies std.w
      ensures std.Logged(LevelFatal, env.sprintf(Verbs(|v|), v), env,
                         if std.w == null then [] else old(std.w.writes), outcome, Exited(-1))
    {
      var format := GetFormat(|v|);
      outcome := std.Fatal(format, v, env);
    }

    method Panic(v: seq<Arg>, env: Env) returns (outcome: Outcome)
      modifies std.w
      ensures std.Logged(LevelPanic, env.sprintf(Verbs(|v|), v), env,
                         if std.w == null then [] else old(std.w.writes), outcome,
                         Panicked(env.sprintf(Verbs(|v|), v)))
    {
      var format := GetFormat(|v|);
      outcome := std.Panic(format, v, env);
    }

    method Notice(v: seq<Arg>, env: Env) returns (outcome: Outcome)
      modifies std.w
      ensures std.Logged(LevelNotice, env.sprintf(Verbs(|v|), v), env,
                         if std.w == null then [] else old(std.w.writes), outcome, Returned)
    {
      var format := GetFormat(|v|);
      outcome := std.Notice(format, v, env);
    }

    method Infof(format: string, v: seq<Arg>, env: Env) returns (outcome: Outcome)
      modifies std.w
      ensures std.Logged(LevelInfo, env.sprintf(format, v), env,
                         if std.w == null then [] else old(std.w.writes), outcome, Returned)
    {
      outcome := std.Info(format, v, env);
    }

    method Noticef(format: string, v: seq<Arg>, env: Env) returns (outcome: Outcome)
      modifies std.w
      ensures std.Logged(LevelNotice, env.sprintf(format, v), env,
                         if std.w == null then [] else old(std.w.writes), outcome, Returned)
    {
      outcome := std.Notice(format, v, env);
    }

    method Debugf(format: string, v: seq<Arg>, env: Env) returns (outcome: Outcome)
      modifies std.w
      ensures std.Logged(LevelDebug, env.sprintf(format, v), env,
                         if std.w == null then [] else old(std.w.writes), outcome, Returned)
    {
      outcome := std.Debug(format, v, env);
    }

    method Warnf(format: string, v: seq<Arg>, env: Env) returns (outcome: Outcome)
      modifies std.w
      ensures std.Logged(LevelWarn, env.sprintf(format, v), env,
                         if std.w == null then [] else old(std.w.writes), outcome, Returned)
    {
      outcome := std.Warn(format, v, env);
    }

    method Errorf(format: string, v: seq<Arg>, env: Env) returns (outcome: Outcome)
      modifies std.w
      ensures std.Logged(LevelError, env.sprintf(format, v), env,
                         if std.w == null then [] else old(std.w.writes), outcome, Returned)
    {
      outcome := std.Error(format, v, env);
    }

    method Panicf(format: string, v: seq<Arg>, env: Env) returns (outcome: Outcome)
      modifies std.w
      ensures std.Logged(LevelPanic, env.sprintf(format, v), env,
                         if std.w == null then [] else old(std.w.writes), outcome,
                         Panicked(env.sprintf(format, v)))
    {
      outcome := std.Panic(format, v, env);
    }

    method Fatalf(format: string, v: seq<Arg>, env: Env) returns (outcome: Outcome)
      modifies std.w
      ensures std.Logged(LevelFatal, env.sprintf(format, v), env,
                         if std.w == null then [] else old(std.w.writes), outcome, Exited(-1))
    {
      outcome := std.Fatal(format, v, env);
    }
  }
}
