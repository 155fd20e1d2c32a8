/** `BaseSpider.dump_data`: the save-mode check and what the file ends up holding. */
module Dumping {
  import opened Base
  import opened Records
  import opened Text

  /** `BaseSpider.SAVE_MODES`. */
  const SaveModes := ["json", "txt"]

  const ModeError := RuntimeError("存储模式指定有误，请输入txt、json")

  /** `''.join([data, '\n'])` on an item that is not a `str`. */
  const NotText := TypeError("sequence item 0: expected str instance")

  /** What the txt loop wrote before it ended, and what it raised, if anything. */
  datatype Written = Written(text: string, raised: Option<Error>)

  /** The file `dump_data` leaves: the whole list as JSON, or the lines of the txt
      loop. */
  datatype File = JsonFile(values: seq<Value>) | TxtFile(written: Written)

  /** The txt loop: one line per item, each item followed by a line break; a
      non-`str` item raises, and the lines before it stay written. */
  function TxtOf(data: seq<Value>): (w: Written)
    decreases |data|
  {
    if data == [] then Written("", None)
    else match data[0]
      case Str(s) =>
        var rest := TxtOf(data[1..]);
        Written(s + "\n" + rest.text, rest.raised)
      case _ => Written("", Some(NotText))
  }

  /** `text` written first, then `w`. */
  function After(text: string, w: Written): Written
  {
    Written(text + w.text, w.raised)
  }

  /** `dump_data(save_mode)`: RuntimeError for a mode outside `SAVE_MODES`. */
  function DumpOf(data: seq<Value>, mode: string): (r: Result<File>)
    ensures r.Err? <==> mode !in SaveModes
    ensures r.Err? ==> r.error == ModeError
    ensures mode == "json" ==> r == Ok(JsonFile(data))
  {
    if mode !in SaveModes then Err(ModeError)
    else if mode == "json" then Ok(JsonFile(data))
    else Ok(TxtFile(TxtOf(data)))
  }

  /** The lines of `xs`, each followed by a line break. */
  function Lines(xs: seq<string>): string
    decreases |xs|
  {
    if xs == [] then "" else xs[0] + "\n" + Lines(xs[1..])
  }

  /** The items as `Str` values. */
  function Strs(xs: seq<string>): (r: seq<Value>)
    ensures |r| == |xs| && forall i :: 0 <= i < |xs| ==> r[i] == Str(xs[i])
  {
    seq(|xs|, i requires 0 <= i < |xs| => Str(xs[i]))
  }

  /** A list of strings is written whole, one line each; before the first item that
      is not a string the lines are written, and then TypeError. */
  lemma {:induction false} TxtOfLines(xs: seq<string>, tail: seq<Value>)
    ensures tail == [] ==> TxtOf(Strs(xs) + tail) == Written(Lines(xs), None)
    ensures tail != [] && !tail[0].Str? ==> TxtOf(Strs(xs) + tail) == Written(Lines(xs), Some(NotText))
    decreases |xs|
  {
    var d := Strs(xs) + tail;
    if xs == [] {
      assert d == tail;
    } else {
      assert d[0] == Str(xs[0]);
      assert d[1..] == Strs(xs[1..]) + tail;
      TxtOfLines(xs[1..], tail);
    }
  }

  /** Reading the txt file back: splitting at line breaks gives the strings, then
      the empty piece after the last break, when no string holds a line break. */
  lemma {:induction false} LinesSplit(xs: seq<string>)
    requires NoneContains(xs, '\n')
    ensures Split(Lines(xs), '\n') == xs + [""]
    decreases |xs|
  {
    if xs != [] {
      var s := Lines(xs);
      var rest := Lines(xs[1..]);
      NoneContainsTail(xs, '\n');
      assert s == xs[0] + ['\n'] + rest;
      SplitAfter(xs[0], '\n', rest);
      LinesSplit(xs[1..]);
      assert [xs[0]] + xs[1..] == xs;
      AppendAssoc([xs[0]], xs[1..], [""]);
    }
  }

  /** The loop `for data in self.data: file.write(''.join([data, '\n']))`. */
  method WriteLines(data: seq<Value>) returns (w: Written)
    ensures w == TxtOf(data)
  {
    var text := "";
    var i := 0;
    while i < |data|
      invariant 0 <= i <= |data|
      invariant TxtOf(data) == After(text, TxtOf(data[i..]))
      decreases |data| - i
    {
      assert data[i..][0] == data[i] && data[i..][1..] == data[i + 1..];
      match data[i] {
        case Str(s) =>
          assert text + (s + "\n" + TxtOf(data[i + 1..]).text) == text + s + "\n" + TxtOf(data[i + 1..]).text;
          text := text + s + "\n";
        case _ =>
          return Written(text, Some(NotText));
      }
      i := i + 1;
    }
    return Written(text, None);
  }

  /** `dump_data(save_mode)`. */
  method DumpData(data: seq<Value>, mode: string) returns (r: Result<File>)
    ensures r == DumpOf(data, mode)
  {
    if mode !in SaveModes {
      return Err(ModeError);
    }
    if mode == "json" {
      return Ok(JsonFile(data));
    }
    var w := WriteLines(data);
    return Ok(TxtFile(w));
  }
}
