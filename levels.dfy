/**
 * The severity levels of logx and the two tables indexed by a level:
 * the four-character level names and the ANSI (ECMA-48 SGR) colour
 * sequences, with the reset sequence that closes a coloured record.
 */
module Severity {

  const LevelTest := 0
  const LevelDebug := 1
  const LevelInfo := 2
  const LevelNotice := 3
  const LevelWarn := 4
  const LevelError := 5
  const LevelPanic := 6
  const LevelFatal := 7

  /** The escape character that starts every SGR sequence. */
  const Esc: char := '\U{1B}'

  /** SGR "reset all attributes". */
  const EndColor: string := "\U{1B}[0m"

  /** Colour per level; the source keys the table by level, so Debug (1) is blue and Info (2) white. */
  const LogColor: seq<string> := [
    "\U{1B}[1;37m", // Test: white
    "\U{1B}[1;34m", // Debug: blue
    "\U{1B}[1;37m", // Info: white
    "\U{1B}[1;33m", // Notice: yellow
    "\U{1B}[1;32m", // Warn: green
    "\U{1B}[1;31m", // Error: red
    "\U{1B}[1;35m", // Panic: fuchsia
    "\U{1B}[1;36m"  // Fatal: cyan
  ]

  /** One-letter level names; the source declares them but never uses them. */
  const SmallLevels: seq<string> := ["T", "D", "I", "N", "W", "E", "P", "F"]

  /** Four-character level names written between brackets in a text record. */
  const Levels: seq<string> := ["TEST", "DEBU", "INFO", "NOTI", "WARN", "ERRO", "PANI", "FATA"]

  /** A level that indexes both tables without going out of range. */
  predicate ValidLevel(level: int) {
    0 <= level < |Levels|
  }

  /** Every level name has four characters, none of them an escape. */
  lemma LevelNamesShape(level: int)
    requires ValidLevel(level)
    ensures |Levels[level]| == 4
    ensures Esc !in Levels[level]
    ensures |LogColor| == |Levels|
  {
  }

  /** Every colour sequence starts with the escape character and ends with 'm'; the reset is "ESC[0m". */
  lemma ColorsAreSgr(level: int)
    requires ValidLevel(level)
    ensures |LogColor[level]| == 7 && LogColor[level][0] == Esc && LogColor[level][1] == '['
    ensures LogColor[level][6] == 'm'
    ensures EndColor == [Esc, '[', '0', 'm']
  {
  }
}
