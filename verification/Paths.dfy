/** Paths as `std::path::Path` compares them: by components. */
module Paths {
  import opened Wrappers

  datatype Component = RootDir | CurDir | ParentDir | Normal(name: string)

  type Path = seq<Component>

  // `Path::parent`
  function Parent(p: Path): Option<Path> {
    if p == [] || p[|p| - 1].RootDir? then None else Some(p[..|p| - 1])
  }

  // `Path::file_name`
  function FileName(p: Path): Option<string> {
    if p != [] && p[|p| - 1].Normal? then Some(p[|p| - 1].name) else None
  }

  // `Path::join`
  function Join(base: Path, relative: Path): Path {
    if relative != [] && relative[0].RootDir? then relative
    else if relative != [] && relative[0].CurDir? && base != [] then base + relative[1..]
    else base + relative
  }

  // `Path::starts_with`
  predicate Under(p: Path, root: Path) {
    root <= p
  }

  predicate Traverses(p: Path) {
    ParentDir in p
  }

  // What one piece between slashes contributes, behind the start of a path.
  function Segment(s: string): Path {
    if s == "" || s == "." then []
    else if s == ".." then [ParentDir]
    else [Normal(s)]
  }

  // The components of the text behind the first slash or start.
  function Segments(text: string, piece: string): Path
    decreases |text|
  {
    if text == [] then Segment(piece)
    else if text[0] == '/' then Segment(piece) + Segments(text[1..], "")
    else Segments(text[1..], piece + [text[0]])
  }

  // `Path::new(text).components()`
  function Parse(text: string): Path {
    if text != [] && text[0] == '/' then [RootDir] + Segments(text[1..], "")
    else if text == "." || (|text| >= 2 && text[..2] == "./") then [CurDir] + Segments(text[1..], "")
    else Segments(text, "")
  }

  // `Path::display`
  function Display(p: Path): string {
    if p == [] then ""
    else
      var head := match p[0]
        case RootDir => "/"
        case CurDir => "."
        case ParentDir => ".."
        case Normal(name) => name;
      if |p| == 1 then head
      else if p[0].RootDir? then head + Display(p[1..])
      else head + "/" + Display(p[1..])
  }

  // A name that is one ordinary component.
  predicate IsPlainName(s: string) {
    s != "" && s != "." && s != ".." && '/' !in s
  }

  lemma {:induction false} SegmentsOfPlain(text: string, piece: string)
    requires '/' !in text
    ensures Segments(text, piece) == Segment(piece + text)
  {
    if text == [] {
      assert piece + text == piece;
    } else {
      assert (piece + [text[0]]) + text[1..] == piece + text;
      SegmentsOfPlain(text[1..], piece + [text[0]]);
    }
  }

  lemma ParsePlain(text: string)
    requires IsPlainName(text)
    ensures Parse(text) == [Normal(text)]
  {
    SegmentsOfPlain(text, "");
    assert "" + text == text;
    assert |text| >= 2 ==> text[1] != '/';
  }

  lemma JoinPlain(base: Path, name: string)
    requires IsPlainName(name)
    ensures Join(base, Parse(name)) == base + [Normal(name)]
  {
    ParsePlain(name);
  }
}
