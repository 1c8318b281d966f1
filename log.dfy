/** src/log.rs: the `Level` order and the `Logger` with a threshold and an
    optional log file. An emitted line is an output value: appended to the
    file, or printed to stdout or stderr. The console colours are not part
    of the text. */
module Logging {
  import opened Outcome

  /** `Level`, in the order of its derived `Ord`. */
  datatype Level = Debug | Info | Warn | Error

  /** The position of a level in the declaration order. */
  function Rank(l: Level): nat {
    match l
    case Debug => 0
    case Info => 1
    case Warn => 2
    case Error => 3
  }

  /** `a >= b` on levels. */
  predicate AtLeast(a: Level, b: Level) {
    Rank(a) >= Rank(b)
  }

  /** The derived order is a total order: Debug < Info < Warn < Error. */
  lemma LevelOrder(a: Level, b: Level, c: Level)
    ensures AtLeast(a, a)
    ensures AtLeast(a, b) && AtLeast(b, a) ==> a == b
    ensures AtLeast(a, b) && AtLeast(b, c) ==> AtLeast(a, c)
    ensures AtLeast(a, b) || AtLeast(b, a)
    ensures AtLeast(Info, Debug) && AtLeast(Warn, Info) && AtLeast(Error, Warn) && !AtLeast(Debug, Info)
  {
  }

  /** The tag that starts a line of each level. */
  function Tag(l: Level): (r: string)
    ensures |r| == 8 && r[0] == '[' && r[7] == ' '
  {
    match l
    case Debug => "[DEBUG] "
    case Info => "[INFO]  "
    case Warn => "[WARN]  "
    case Error => "[ERROR] "
  }

  /** Different levels have different tags. */
  lemma TagsDistinct(a: Level, b: Level)
    requires a != b
    ensures Tag(a) != Tag(b)
  {
    assert Tag(a)[1] != Tag(b)[1] || Tag(a)[2] != Tag(b)[2];
  }

  const Separator := " |: "

  /** The text of a line, without the file's newline. */
  function Line(l: Level, owner: string, message: string): (r: string)
    ensures |r| == 8 + |owner| + 4 + |message|
  {
    Tag(l) + owner + Separator + message
  }

  /** A line can be taken apart again: its first eight characters are the
      tag, then come the owner, the separator and the message. */
  lemma LineParts(l: Level, owner: string, message: string)
    ensures var r := Line(l, owner, message);
      r[..8] == Tag(l) && r[8..8 + |owner|] == owner &&
      r[8 + |owner|..12 + |owner|] == Separator && r[12 + |owner|..] == message
  {
    var r := Line(l, owner, message);
    assert r == Tag(l) + (owner + (Separator + message));
  }

  /** Lines with owners of the same length are equal only when level, owner
      and message are. */
  lemma LineInjective(l1: Level, o1: string, m1: string, l2: Level, o2: string, m2: string)
    requires |o1| == |o2| && Line(l1, o1, m1) == Line(l2, o2, m2)
    ensures l1 == l2 && o1 == o2 && m1 == m2
  {
    LineParts(l1, o1, m1);
    LineParts(l2, o2, m2);
    if l1 != l2 {
      TagsDistinct(l1, l2);
    }
  }

  /** Where a line goes. */
  datatype Output =
    | FileAppend(path: string, text: string)
    | Stdout(text: string)
    | Stderr(text: string)

  class Logger {
    var level: Level
    var file: Option<string>

    /** `Logger::new`: threshold Info, console output. */
    constructor ()
      ensures level == Info && file == None
    {
      level := Info;
      file := None;
    }

    /** `set_level`: replaces the threshold only. */
    method SetLevel(l: Level)
      modifies this
      ensures level == l && file == old(file)
    {
      level := l;
    }

    /** `set_file`: replaces the file only. */
    method SetFile(f: Option<string>)
      modifies this
      ensures file == f && level == old(level)
    {
      file := f;
    }

    /** `log`: nothing below the threshold; otherwise the line with a newline
        appended to the file, or the line on stderr for an error and on stdout
        for any other level. */
    method Log(l: Level, owner: string, message: string) returns (out: Option<Output>)
      ensures out == Emit(level, file, l, owner, message)
      ensures out.Some? <==> AtLeast(l, level)
      ensures out.Some? && file.Some? ==> out.value == FileAppend(file.value, Line(l, owner, message) + "\n")
      ensures out.Some? && file.None? && l == Error ==> out.value == Stderr(Line(l, owner, message))
      ensures out.Some? && file.None? && l != Error ==> out.value == Stdout(Line(l, owner, message))
    {
      if !AtLeast(l, level) {
        return None;
      }
      if file.Some? {
        var result := Tag(l) + owner + Separator + message + "\n";
        out := Some(FileAppend(file.value, result));
      } else {
        var result := Tag(l) + owner + Separator + message;
        out := Some(if l == Error then Stderr(result) else Stdout(result));
      }
    }
  }

  /** The outcome of `log` as a function of the logger's state. */
  function Emit(threshold: Level, file: Option<string>, l: Level, owner: string, message: string): Option<Output> {
    if !AtLeast(l, threshold) then None
    else if file.Some? then Some(FileAppend(file.value, Line(l, owner, message) + "\n"))
    else if l == Error then Some(Stderr(Line(l, owner, message)))
    else Some(Stdout(Line(l, owner, message)))
  }

  /** A fresh logger drops debug messages and prints the rest; raising the
      threshold to Error keeps only errors. */
  lemma DefaultThreshold(owner: string, message: string, l: Level)
    ensures Emit(Info, None, Debug, owner, message) == None
    ensures l != Debug ==> Emit(Info, None, l, owner, message).Some?
    ensures Emit(Error, None, l, owner, message).Some? <==> l == Error
  {
  }

  /** The file's format strings end in the `\n` that the console's leave to
      `println!` and `eprintln!`: the file text is the console text plus `\n`. */
  lemma FileLineIsConsoleLine(path: string, l: Level, owner: string, message: string, threshold: Level)
    requires AtLeast(l, threshold)
    ensures var f := Emit(threshold, Some(path), l, owner, message).value;
      var c := Emit(threshold, None, l, owner, message).value;
      f.text == c.text + "\n" && f.text[|f.text| - 1] == '\n'
  {
  }
}
