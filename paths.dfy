/** `pathlib.PurePosixPath` as furo2 uses it: built from a string, extended with `/`,
    asked for its `parent`, and turned back into a string with `str`. */
module Paths {

  import opened Text

  /** A parsed path: whether it starts at the root, and its parts. */
  datatype PosixPath = PosixPath(absolute: bool, parts: seq<string>)

  /** A part as pathlib keeps it: not empty, not `.`, and without a slash. */
  predicate IsPart(p: string) {
    p != "" && p != "." && '/' !in p
  }

  predicate Normal(p: PosixPath) {
    forall i :: 0 <= i < |p.parts| ==> IsPart(p.parts[i])
  }

  /** The pieces between slashes, without the empty pieces and `.` that pathlib drops. */
  function DropEmpty(pieces: seq<string>): (r: seq<string>)
    requires forall i :: 0 <= i < |pieces| ==> '/' !in pieces[i]
    ensures forall i :: 0 <= i < |r| ==> IsPart(r[i])
  {
    if pieces == [] then []
    else (if pieces[0] == "" || pieces[0] == "." then [] else [pieces[0]]) + DropEmpty(pieces[1..])
  }

  lemma {:induction false} DropEmptyKeepsParts(pieces: seq<string>)
    requires forall i :: 0 <= i < |pieces| ==> IsPart(pieces[i])
    ensures (forall i :: 0 <= i < |pieces| ==> '/' !in pieces[i]) && DropEmpty(pieces) == pieces
  {
    if pieces != [] {
      DropEmptyKeepsParts(pieces[1..]);
    }
  }

  /** `PurePosixPath(s)`. */
  function Parse(s: string): (p: PosixPath)
    ensures Normal(p)
    ensures p.absolute <==> HasPrefix(s, "/")
  {
    PosixPath(HasPrefix(s, "/"), DropEmpty(Split(s, '/')))
  }

  /** `base / s`: an absolute `s` replaces the base, a relative one is appended to it. */
  function JoinPath(base: PosixPath, s: string): (r: PosixPath)
    ensures Normal(base) ==> Normal(r)
    ensures !HasPrefix(s, "/") ==> r.absolute == base.absolute && r.parts == base.parts + Parse(s).parts
    ensures HasPrefix(s, "/") ==> r == Parse(s)
  {
    var q := Parse(s);
    if q.absolute then q else PosixPath(base.absolute, base.parts + q.parts)
  }

  /** `path.parent`: the path without its last part (the root and `.` are their own parent). */
  function Parent(p: PosixPath): (r: PosixPath)
    ensures r.absolute == p.absolute
    ensures p.parts != [] ==> p.parts == r.parts + [p.parts[|p.parts| - 1]]
    ensures p.parts == [] ==> r == p
  {
    if p.parts == [] then p else PosixPath(p.absolute, p.parts[..|p.parts| - 1])
  }

  /** `str(path)`. */
  function Render(p: PosixPath): string
  {
    if p.absolute then "/" + Join(p.parts, "/")
    else if p.parts == [] then "."
    else Join(p.parts, "/")
  }

  /** The path the operating system means by `p` while the working directory is `cwd`:
      an absolute `p` stands for itself, a relative one is read below `cwd` (as text,
      without normalising `.` or `..`). */
  function Resolve(cwd: string, p: string): string
  {
    if HasPrefix(p, "/") then p else cwd + "/" + p
  }

  /** The string of a path starts at the root exactly when the path does. */
  lemma RenderRooted(p: PosixPath)
    requires Normal(p)
    ensures HasPrefix(Render(p), "/") <==> p.absolute
  {
    ParseRender(p);
  }

  /** A path named from its own parent: after moving to `str(p.parent)`, looking up
      `str(p)` finds `p` again when `p` is absolute, or relative with one part (its parent
      is `.`); a relative `p` of more parts is looked up below its parent, a longer path
      than the one `p` names from where the move started. */
  lemma ResolveFromParent(before: string, p: PosixPath)
    requires Normal(p)
    ensures p.absolute ==> Resolve(Resolve(before, Render(Parent(p))), Render(p)) == Render(p)
    ensures !p.absolute ==>
              Resolve(Resolve(before, Render(Parent(p))), Render(p))
              == before + "/" + Render(Parent(p)) + "/" + Render(p)
    ensures !p.absolute && |p.parts| == 1 ==>
              Resolve(Resolve(before, Render(Parent(p))), Render(p)) == before + "/./" + Render(p)
    ensures !p.absolute && |p.parts| >= 2 ==>
              |Resolve(Resolve(before, Render(Parent(p))), Render(p))| > |Resolve(before, Render(p))|
  {
    RenderRooted(p);
    if !p.absolute {
      var parent := Parent(p);
      assert Normal(parent) by {
        if p.parts != [] {
          forall i | 0 <= i < |parent.parts| ensures IsPart(parent.parts[i]) {
            assert parent.parts[i] == p.parts[i];
          }
        }
      }
      RenderRooted(parent);
      if |p.parts| >= 2 {
        JoinStartsWithFirst(parent.parts);
      }
    }
  }

  /** `str` loses nothing: parsing the string of a path gives the path back. */
  lemma ParseRender(p: PosixPath)
    requires Normal(p)
    ensures Parse(Render(p)) == p
  {
    if p.parts == [] {
      if p.absolute {
        SplitAfter("", '/', "");
        assert "" + ['/'] + "" == "/";
      } else {
        assert Split(".", '/') == ["."];
      }
    } else if p.absolute {
      ParseRenderAbsolute(p);
    } else {
      ParseRenderRelative(p);
    }
  }

  lemma ParseRenderAbsolute(p: PosixPath)
    requires Normal(p) && p.absolute && p.parts != []
    ensures Parse(Render(p)) == p
  {
    var j := Join(p.parts, "/");
    SplitJoin(p.parts, '/');
    DropEmptyKeepsParts(p.parts);
    SplitAfter("", '/', j);
    assert Render(p) == "" + ['/'] + j;
    assert Split(Render(p), '/') == [""] + p.parts;
    assert DropEmpty([""] + p.parts) == DropEmpty(p.parts) by {
      assert ([""] + p.parts)[1..] == p.parts;
    }
  }

  lemma ParseRenderRelative(p: PosixPath)
    requires Normal(p) && !p.absolute && p.parts != []
    ensures Parse(Render(p)) == p
  {
    SplitJoin(p.parts, '/');
    DropEmptyKeepsParts(p.parts);
    JoinStartsWithFirst(p.parts);
    assert IsPart(p.parts[0]);
    assert p.parts[0][0] != '/' by { assert p.parts[0][0] in p.parts[0]; }
  }

  lemma JoinStartsWithFirst(words: seq<string>)
    requires |words| >= 1 && words[0] != ""
    ensures var j := Join(words, "/"); |j| >= 1 && j[0] == words[0][0]
  {
  }
}
