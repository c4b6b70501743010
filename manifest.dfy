/** Registration of fuzz targets in the generated `fuzz/Cargo.toml`.
    Each registration derives a target name from the function name and its module
    path, then either creates the manifest (package header plus the first `[[bin]]`
    block) or, when the manifest exists, appends a block for the name unless a block
    already declares it. Existing names are found by splitting the manifest at blank
    lines, skipping the five pieces of the header and reading the second line of
    every remaining piece. */
module CrateParse {
  import opened Syntax
  import opened Text

  /** The separator at which the manifest is split: one empty line. */
  const BlankLine := NL + NL

  // ------------------------------------------------------------ target names

  /** The printed form of a module path token stream `foo::bar`. */
  function AttrText(attr: seq<string>): string
  {
    Join(attr, " :: ")
  }

  /** The target name: the function name alone outside any module, otherwise the
      module path with each ` :: ` replaced by `__`, then `__`, then the function name. */
  function TargetName(fnName: string, attr: seq<string>): string
  {
    if attr == [] then fnName else Replace(AttrText(attr), " :: ", "__") + "__" + fnName
  }

  /** A text that the manifest can hold inside a TOML basic string on one line. */
  predicate PlainText(s: string)
  {
    forall i | 0 <= i < |s| :: s[i] != '\n' && s[i] != '\r' && s[i] != '"' && s[i] != '\\'
  }

  /** A Rust identifier's text, as far as the manifest cares. */
  predicate IdentText(s: string)
  {
    PlainText(s) && Avoids(s, ' ')
  }

  lemma PlainTextAppend(a: string, b: string)
    requires PlainText(a) && PlainText(b)
    ensures PlainText(a + b)
  {
    assert forall i | |a| <= i < |a + b| :: (a + b)[i] == b[i - |a|];
  }

  lemma {:induction false} PlainTextJoin(xs: seq<string>, sep: string)
    requires PlainText(sep) && forall k | 0 <= k < |xs| :: PlainText(xs[k])
    ensures PlainText(Join(xs, sep))
  {
    if |xs| > 1 {
      PlainTextJoin(xs[1..], sep);
      PlainTextAppend(xs[0], sep);
      PlainTextAppend(xs[0] + sep, Join(xs[1..], sep));
    }
  }

  /** For module segments that are identifiers, the target name is the segments and
      the function name joined by `__`. */
  lemma TargetNameSegments(fnName: string, attr: seq<string>)
    requires forall k | 0 <= k < |attr| :: Avoids(attr[k], ' ')
    ensures TargetName(fnName, attr) == Join(attr + [fnName], "__")
  {
    if attr != [] {
      ReplaceJoin(attr, " :: ", "__");
      JoinSnoc(attr, fnName, "__");
    }
  }

  /** Target names of identifiers are plain one-line texts. */
  lemma TargetNamePlain(fnName: string, attr: seq<string>)
    requires IdentText(fnName) && forall k | 0 <= k < |attr| :: IdentText(attr[k])
    ensures PlainText(TargetName(fnName, attr))
  {
    TargetNameSegments(fnName, attr);
    PlainTextJoin(attr + [fnName], "__");
  }

  lemma JoinFour(a: string, b: string, c: string, d: string, sep: string)
    ensures Join([a, b, c, d], sep) == a + sep + b + sep + c + sep + d
  {
    var xs := [a, b, c, d];
    assert xs[1..] == [b, c, d] && xs[1..][1..] == [c, d] && xs[1..][1..][1..] == [d];
    assert Join([c, d], sep) == c + sep + d;
    assert Join([b, c, d], sep) == b + sep + (c + sep + d);
    assert Join(xs, sep) == a + sep + (b + sep + (c + sep + d));
  }

  /** Example: the module path `foo::bar::dog` and the function `cat` give `foo__bar__dog__cat`. */
  lemma TargetNameExample(fnName: string, attr: seq<string>)
    requires fnName == "cat" && attr == ["foo", "bar", "dog"]
    ensures TargetName(fnName, attr) == "foo__bar__dog__cat"
  {
    ExampleSegments();
    ThreeSegments(attr[0], attr[1], attr[2], fnName);
    assert attr == [attr[0], attr[1], attr[2]];
  }

  lemma ExampleSegments()
    ensures Avoids("foo", ' ') && Avoids("bar", ' ') && Avoids("dog", ' ')
  {
  }

  lemma ThreeSegments(a: string, b: string, d: string, f: string)
    requires Avoids(a, ' ') && Avoids(b, ' ') && Avoids(d, ' ')
    ensures TargetName(f, [a, b, d]) == a + "__" + b + "__" + d + "__" + f
  {
    TargetNameSegments(f, [a, b, d]);
    assert [a, b, d] + [f] == [a, b, d, f];
    JoinFour(a, b, d, f, "__");
  }

  /** Example: names are not injective; the function `bar` in module `foo` and the function
      `foo__bar` outside any module register the same target. */
  lemma TargetNameCollision()
    ensures TargetName("bar", ["foo"]) == TargetName("foo__bar", [])
  {
    TargetNameSegments("bar", ["foo"]);
  }

  // --------------------------------------------- splitting at blank lines

  /** No empty line starts inside `s`: every line break is followed by a character
      other than a line break. */
  predicate Clean(s: string)
  {
    forall i | 0 <= i < |s| - 1 :: s[i] == '\n' ==> s[i + 1] != '\n'
  }

  /** A piece between two blank-line separators: clean and not ending in a line break. */
  predicate Piece(s: string)
  {
    Clean(s) && (s == [] || s[|s| - 1] != '\n')
  }

  lemma CleanOfLine(s: string)
    requires Avoids(s, '\n')
    ensures Clean(s) && Piece(s)
  {
  }

  /** Two clean texts joined at a line break stay clean when neither touches the
      break with a line break of its own. */
  lemma CleanLines(a: string, b: string)
    requires Piece(a) && Clean(b) && (b == [] || b[0] != '\n')
    ensures Clean(a + NL + b)
    ensures b != [] && Piece(b) ==> Piece(a + NL + b)
  {
    var s := a + NL + b;
    forall i | 0 <= i < |s| - 1
      ensures s[i] == '\n' ==> s[i + 1] != '\n'
    {
      if i < |a| - 1 {
        assert s[i] == a[i] && s[i + 1] == a[i + 1];
      } else if i == |a| - 1 {
        assert s[i] == a[i];
      } else if i == |a| {
        assert s[i + 1] == b[0];
      } else {
        assert s[i] == b[i - |a| - 1] && s[i + 1] == b[i - |a|];
      }
    }
    if b != [] {
      assert s[|s| - 1] == b[|b| - 1];
    }
  }

  /** Two clean texts glued together stay clean when they do not meet at two line breaks. */
  lemma CleanAppend(a: string, b: string)
    requires Clean(a) && Clean(b)
    requires a == [] || b == [] || a[|a| - 1] != '\n' || b[0] != '\n'
    ensures Clean(a + b)
  {
    var s := a + b;
    forall i | 0 <= i < |s| - 1
      ensures s[i] == '\n' ==> s[i + 1] != '\n'
    {
      if i < |a| - 1 {
        assert s[i] == a[i] && s[i + 1] == a[i + 1];
      } else if i == |a| - 1 {
        assert s[i] == a[i] && s[i + 1] == b[0];
      } else {
        assert s[i] == b[i - |a|] && s[i + 1] == b[i + 1 - |a|];
      }
    }
  }

  lemma NoBlankLineIn(s: string, i: nat)
    requires Clean(s)
    ensures !MatchAt(s, i, BlankLine)
  {
    if i + 2 <= |s| {
      assert s[i..i + 2][0] == s[i] && s[i..i + 2][1] == s[i + 1];
    }
  }

  /** Pieces joined by blank lines, with a final line break, split back into the
      pieces (the last one keeping that line break). */
  lemma {:induction false} SplitPieces(ps: seq<string>)
    requires |ps| >= 1 && forall k | 0 <= k < |ps| :: Piece(ps[k])
    ensures SplitOn(Join(ps, BlankLine) + NL, BlankLine) == ps[..|ps| - 1] + [ps[|ps| - 1] + NL]
  {
    if |ps| == 1 {
      CleanAppend(ps[0], NL);
      forall i | 0 <= i <= |ps[0] + NL|
        ensures !MatchAt(ps[0] + NL, i, BlankLine)
      {
        NoBlankLineIn(ps[0] + NL, i);
      }
      SplitWhole(ps[0] + NL, BlankLine);
    } else {
      var a, rest := ps[0], Join(ps[1..], BlankLine) + NL;
      var s := a + BlankLine + rest;
      assert Join(ps, BlankLine) + NL == s;
      forall i | 0 <= i < |a|
        ensures !MatchAt(s, i, BlankLine)
      {
        if i < |a| - 1 {
          assert s[i] == a[i] && s[i + 1] == a[i + 1];
        } else {
          assert s[i] == a[i];
        }
        if i + 2 <= |s| {
          assert s[i..i + 2][0] == s[i] && s[i..i + 2][1] == s[i + 1];
        }
      }
      SplitCons(a, BlankLine, rest);
      SplitPieces(ps[1..]);
      assert ps[1..][..|ps[1..]| - 1] == ps[1..|ps| - 1];
      assert ps[..|ps| - 1] == [a] + ps[1..|ps| - 1];
    }
  }

  // --------------------------------------------------------- the manifest text

  // Lines of the generated manifest, kept short so that they can be reasoned about.
  const PackageTable := "[package]"
  const NameKey := "name = \""
  const VersionLine := "version = \"0.0.0\""
  const AuthorsLine := "authors = [\"Automatically generated\"]"
  const PublishLine := "publish = false"
  const EditionLine := "edition = \"2018\""
  const MetadataTable := "[package.metadata]"
  const CargoFuzzLine := "cargo-fuzz = true"
  const DependenciesTable := "[dependencies]"
  const LibfuzzerLine := "libfuzzer-sys = \"0.4\""
  const PathLine := "path = \"..\""
  const WorkspaceComment := "# Prevent this from " + "interfering with workspaces"
  const WorkspaceTable := "[workspace]"
  const MembersLine := "members = [\".\"]"
  const BinTable := "[[bin]]"
  const TargetPathKey := "path = \"fuzz_targets/"
  const TestLine := "test = false"
  const DocLine := "doc = false"

  /** The package section after the crate name, from `-fuzz"` to the edition line. */
  const PackageTail :=
    "-fuzz\"" + NL + VersionLine + NL + AuthorsLine + NL + PublishLine + NL + EditionLine
  const MetadataPiece := MetadataTable + NL + CargoFuzzLine
  const DependenciesPiece := DependenciesTable + NL + LibfuzzerLine
  const WorkspacePiece := WorkspaceComment + NL + WorkspaceTable + NL + MembersLine

  // The five template constants of the manifest, with the same text as in the source.
  const CargoTomlTemplatePrefix := PackageTable + NL + NameKey
  const CargoTomlTemplateInfix :=
    PackageTail + BlankLine + MetadataPiece + BlankLine + DependenciesPiece + BlankLine + "[dependencies."
  const CargoTomlTemplatePostfix := "]" + NL + PathLine + BlankLine + WorkspacePiece + NL
  const TargetTemplatePrefix := NL + BinTable + NL + NameKey
  const TargetTemplateInfix := "\"" + NL + TargetPathKey
  const TargetTemplatePostfix := ".rs\"" + NL + TestLine + NL + DocLine + NL

  /** The package header written when the manifest is created. */
  function Header(crateName: string): string
  {
    CargoTomlTemplatePrefix + crateName + CargoTomlTemplateInfix + crateName + CargoTomlTemplatePostfix
  }

  /** The `[[bin]]` block that declares one target. */
  function Block(id: string): string
  {
    TargetTemplatePrefix + id + TargetTemplateInfix + id + TargetTemplatePostfix
  }

  /** The blocks of several targets, in order. */
  function Blocks(ids: seq<string>): string
  {
    if ids == [] then "" else Blocks(ids[..|ids| - 1]) + Block(ids[|ids| - 1])
  }

  // The text between blank lines: the header's five sections, then one per block.
  function PackagePiece(c: string): string { PackageTable + NL + NameKey + c + PackageTail }
  function CratePiece(c: string): string { "[dependencies." + c + "]" + NL + PathLine }
  function BinPiece(id: string): string
  {
    BinTable + NL + (NameKey + id + "\"") + NL + (TargetPathKey + id + ".rs\"") + NL + TestLine + NL + DocLine
  }

  function HeaderPieces(c: string): seq<string>
  {
    [PackagePiece(c), MetadataPiece, DependenciesPiece, CratePiece(c), WorkspacePiece]
  }

  function BinPieces(ids: seq<string>): (r: seq<string>)
    ensures |r| == |ids| && forall k | 0 <= k < |ids| :: r[k] == BinPiece(ids[k])
  {
    if ids == [] then [] else BinPieces(ids[..|ids| - 1]) + [BinPiece(ids[|ids| - 1])]
  }

  lemma JoinCons(x: string, xs: seq<string>, sep: string)
    requires |xs| >= 1
    ensures Join([x] + xs, sep) == x + sep + Join(xs, sep)
  {
    assert ([x] + xs)[1..] == xs;
  }

  /** Regrouping of the header's text, with its parts abstracted. */
  lemma HeaderRegroup(n: string, bl: string, c: string, pre: string, t: string, mp: string,
                      dp: string, dd: string, cl: string, pl: string, wp: string)
    ensures pre + c + (t + bl + mp + bl + dp + bl + dd) + c + (cl + n + pl + bl + wp + n)
      == (pre + c + t) + bl + (mp + bl + (dp + bl + ((dd + c + cl + n + pl) + bl + wp))) + n
  {
  }

  /** The header is its five sections separated by blank lines, with a final line break. */
  lemma HeaderLayout(c: string)
    ensures Header(c) == Join(HeaderPieces(c), BlankLine) + NL
  {
    var hp := HeaderPieces(c);
    assert hp[4..] == [WorkspacePiece];
    JoinCons(CratePiece(c), [WorkspacePiece], BlankLine);
    assert hp[3..] == [CratePiece(c)] + [WorkspacePiece];
    assert hp[2..] == [DependenciesPiece] + hp[3..];
    JoinCons(DependenciesPiece, hp[3..], BlankLine);
    assert hp[1..] == [MetadataPiece] + hp[2..];
    JoinCons(MetadataPiece, hp[2..], BlankLine);
    assert hp == [PackagePiece(c)] + hp[1..];
    JoinCons(PackagePiece(c), hp[1..], BlankLine);
    HeaderRegroup(NL, BlankLine, c, CargoTomlTemplatePrefix, PackageTail, MetadataPiece,
                  DependenciesPiece, "[dependencies.", "]", PathLine, WorkspacePiece);
  }

  /** A manifest made of the header and some blocks is its sections separated by
      blank lines, with a final line break. */
  lemma ManifestLayout(c: string, ids: seq<string>)
    ensures Header(c) + Blocks(ids) == Join(HeaderPieces(c) + BinPieces(ids), BlankLine) + NL
  {
    HeaderLayout(c);
    LayoutFrom(Header(c), HeaderPieces(c), ids);
  }

  /** Appending blocks to a text laid out as sections keeps it laid out so. */
  lemma {:induction false} LayoutFrom(h: string, hp: seq<string>, ids: seq<string>)
    requires |hp| >= 1 && h == Join(hp, BlankLine) + NL
    ensures h + Blocks(ids) == Join(hp + BinPieces(ids), BlankLine) + NL
  {
    if ids == [] {
      LayoutBase(h, hp);
    } else {
      var init := ids[..|ids| - 1];
      LayoutFrom(h, hp, init);
      LayoutStep(h, hp, init, ids[|ids| - 1]);
      assert init + [ids[|ids| - 1]] == ids;
    }
  }

  lemma LayoutBase(h: string, hp: seq<string>)
    ensures h + Blocks([]) == h && hp + BinPieces([]) == hp
  {
  }

  lemma LayoutStep(h: string, hp: seq<string>, init: seq<string>, id: string)
    requires |hp| >= 1 && h + Blocks(init) == Join(hp + BinPieces(init), BlankLine) + NL
    ensures h + Blocks(init + [id]) == Join(hp + BinPieces(init + [id]), BlankLine) + NL
  {
    var ps := hp + BinPieces(init);
    SnocFacts(hp, init, id);
    JoinSnoc(ps, BinPiece(id), BlankLine);
    BlockLayout(id);
    BlankLineIsTwoBreaks();
    AppendRegroup(h, Blocks(init), Block(id), Join(ps, BlankLine), NL, BlankLine, BinPiece(id));
  }

  lemma SnocFacts(hp: seq<string>, init: seq<string>, id: string)
    ensures Blocks(init + [id]) == Blocks(init) + Block(id)
    ensures hp + BinPieces(init + [id]) == (hp + BinPieces(init)) + [BinPiece(id)]
  {
    var ids := init + [id];
    assert ids[..|ids| - 1] == init;
  }

  lemma BlankLineIsTwoBreaks()
    ensures BlankLine == NL + NL
  {
  }

  lemma AppendRegroup(h: string, bs: string, blk: string, j: string, n: string, bl: string, b: string)
    requires h + bs == j + n && blk == n + b + n && bl == n + n
    ensures h + (bs + blk) == j + bl + b + n
  {
    calc {
      h + (bs + blk);
      (h + bs) + blk;
      (j + n) + (n + b + n);
      j + (n + n) + b + n;
    }
  }

  lemma BlockRegroup(n: string, b: string, k: string, i: string, q: string, p: string,
                     r: string, t: string, d: string)
    ensures (n + b + n + k) + i + (q + n + p) + i + (r + n + t + n + d + n)
      == n + (b + n + (k + i + q) + n + (p + i + r) + n + t + n + d) + n
  {
  }

  lemma BlockLayout(id: string)
    ensures Block(id) == NL + BinPiece(id) + NL
  {
    BlockRegroup(NL, BinTable, NameKey, id, "\"", TargetPathKey, ".rs\"", TestLine, DocLine);
  }

  lemma PlainAvoidsLineBreak(s: string)
    requires PlainText(s)
    ensures Avoids(s, '\n')
  {
  }

  /** A piece followed by a further non-empty line is still a piece. */
  lemma LineAfter(a: string, b: string)
    requires Piece(a) && b != [] && Avoids(b, '\n')
    ensures Piece(a + NL + b)
  {
    CleanOfLine(b);
    CleanLines(a, b);
  }

  lemma PieceAppend(a: string, b: string)
    requires Piece(a) && Piece(b) && b != [] && b[0] != '\n'
    ensures Piece(a + b)
  {
    CleanAppend(a, b);
    assert (a + b)[|a + b| - 1] == b[|b| - 1];
  }

  lemma InnerLine(a: string, c: string, b: string)
    requires Avoids(a, '\n') && PlainText(c) && Avoids(b, '\n')
    ensures Avoids(a + c + b, '\n')
  {
    assert forall i | 0 <= i < |a + c + b| ::
      (a + c + b)[i] == if i < |a| then a[i] else if i < |a| + |c| then c[i - |a|] else b[i - |a| - |c|];
  }

  lemma PackagePieceIsPiece(c: string)
    requires PlainText(c)
    ensures Piece(PackagePiece(c))
  {
    PackageLines();
    PackageTailIsPiece();
    NamedPiece(PackageTable, NameKey, c, PackageTail);
  }

  lemma PackageLines()
    ensures PackageTable != [] && Avoids(PackageTable, '\n')
    ensures NameKey != [] && Avoids(NameKey, '\n')
  {
  }

  /** A line, then a line holding a key and a plain value, then a piece. */
  lemma NamedPiece(t: string, k: string, c: string, tail: string)
    requires t != [] && Avoids(t, '\n') && k != [] && Avoids(k, '\n') && PlainText(c)
    requires Piece(tail) && tail != [] && tail[0] != '\n'
    ensures Piece(t + NL + k + c + tail)
  {
    CleanOfLine(t);
    InnerLine(k, c, []);
    assert k + c + [] == k + c;
    LineAfter(t, k + c);
    PieceAppend(t + NL + (k + c), tail);
    assert t + NL + (k + c) + tail == t + NL + k + c + tail;
  }

  lemma PackageTailIsPiece()
    ensures Piece(PackageTail) && PackageTail[0] == '-'
  {
    CleanOfLine("-fuzz\"");
    LineAfter("-fuzz\"", VersionLine);
    LineAfter("-fuzz\"" + NL + VersionLine, AuthorsLine);
    LineAfter("-fuzz\"" + NL + VersionLine + NL + AuthorsLine, PublishLine);
    LineAfter("-fuzz\"" + NL + VersionLine + NL + AuthorsLine + NL + PublishLine, EditionLine);
  }

  lemma CratePieceIsPiece(c: string)
    requires PlainText(c)
    ensures Piece(CratePiece(c))
  {
    InnerLine("[dependencies.", c, "]");
    CleanOfLine("[dependencies." + c + "]");
    LineAfter("[dependencies." + c + "]", PathLine);
  }

  lemma FixedPiecesArePieces()
    ensures Piece(MetadataPiece) && Piece(DependenciesPiece) && Piece(WorkspacePiece)
  {
    CleanOfLine(MetadataTable);
    LineAfter(MetadataTable, CargoFuzzLine);
    CleanOfLine(DependenciesTable);
    LineAfter(DependenciesTable, LibfuzzerLine);
    CleanOfLine(WorkspaceComment);
    LineAfter(WorkspaceComment, WorkspaceTable);
    LineAfter(WorkspaceComment + NL + WorkspaceTable, MembersLine);
  }

  lemma ManifestPiecesArePieces(c: string, ids: seq<string>)
    requires PlainText(c) && forall k | 0 <= k < |ids| :: PlainText(ids[k])
    ensures forall k | 0 <= k < |HeaderPieces(c) + BinPieces(ids)| :: Piece((HeaderPieces(c) + BinPieces(ids))[k])
  {
    PackagePieceIsPiece(c);
    CratePieceIsPiece(c);
    FixedPiecesArePieces();
    forall k | 0 <= k < |ids|
      ensures Piece(BinPiece(ids[k]))
    {
      BinPieceIsPiece(ids[k]);
    }
  }

  lemma BinPieceIsPiece(id: string)
    requires PlainText(id)
    ensures Piece(BinPiece(id))
  {
    InnerLine(NameKey, id, "\"");
    InnerLine(TargetPathKey, id, ".rs\"");
    CleanOfLine(BinTable);
    var a := BinTable + NL + (NameKey + id + "\"");
    LineAfter(BinTable, NameKey + id + "\"");
    LineAfter(a, TargetPathKey + id + ".rs\"");
    LineAfter(a + NL + (TargetPathKey + id + ".rs\""), TestLine);
    LineAfter(a + NL + (TargetPathKey + id + ".rs\"") + NL + TestLine, DocLine);
  }

  // ------------------------------------------------ reading an existing manifest

  function StripCr(l: string): string
  {
    if l != [] && l[|l| - 1] == '\r' then l[..|l| - 1] else l
  }

  /** The second line of a text, as `lines().nth(1)` yields it: lines end at `\n`
      (a `\r` before it is dropped), and a final line break adds no empty line. */
  function SecondLine(p: string): Option<string>
  {
    var lines := SplitOn(p, NL);
    if |lines| >= 3 then Some(StripCr(lines[1]))
    else if |lines| == 2 && lines[1] != [] then Some(lines[1])
    else None
  }

  /** The value of a TOML line `name = "<v>"` whose string needs no escapes; any
      other form of the line is outside this model. */
  function NameOf(line: string): Option<string>
  {
    if |line| > |NameKey| && line[..|NameKey|] == NameKey && line[|line| - 1] == '"'
       && PlainText(line[|NameKey|..|line| - 1])
    then Some(line[|NameKey|..|line| - 1])
    else None
  }

  /** The target name a piece of the manifest declares on its second line. */
  function PieceName(p: string): Option<string>
  {
    match SecondLine(p)
    case None => None
    case Some(line) => NameOf(line)
  }

  /** Every piece after the five of the header declares a name in the modelled form. */
  predicate Scannable(s: string)
  {
    var ps := SplitOn(s, BlankLine);
    forall k | 5 <= k < |ps| :: PieceName(ps[k]).Some?
  }

  function NamesOf(ps: seq<string>): (names: seq<string>)
    requires forall k | 0 <= k < |ps| :: PieceName(ps[k]).Some?
    ensures |names| == |ps| && forall k | 0 <= k < |ps| :: names[k] == PieceName(ps[k]).value
  {
    if ps == [] then [] else NamesOf(ps[..|ps| - 1]) + [PieceName(ps[|ps| - 1]).value]
  }

  /** The names of the targets already in a manifest, in order. */
  function ScannedNames(s: string): (names: seq<string>)
    requires Scannable(s)
    ensures var ps := SplitOn(s, BlankLine);
      |names| == (if |ps| <= 5 then 0 else |ps| - 5)
      && forall k | 5 <= k < |ps| :: names[k - 5] == PieceName(ps[k]).value
  {
    var ps := SplitOn(s, BlankLine);
    if |ps| <= 5 then [] else NamesOf(ps[5..])
  }

  lemma SplitAtLine(a: string, rest: string)
    requires Avoids(a, '\n')
    ensures SplitOn(a + NL + rest, NL) == [a] + SplitOn(rest, NL)
  {
    var s := a + NL + rest;
    forall i | 0 <= i < |a|
      ensures !MatchAt(s, i, NL)
    {
      assert s[i..i + 1][0] == s[i] == a[i];
    }
    SplitCons(a, NL, rest);
  }

  lemma SecondLineOf(a: string, b: string, rest: string)
    requires Avoids(a, '\n') && Avoids(b, '\n') && (b == [] || b[|b| - 1] != '\r')
    ensures SecondLine(a + NL + b + NL + rest) == Some(b)
  {
    SplitAtLine(a, b + NL + rest);
    SplitAtLine(b, rest);
    assert a + NL + b + NL + rest == a + NL + (b + NL + rest);
  }

  lemma NameOfLine(v: string)
    requires PlainText(v)
    ensures NameOf(NameKey + v + "\"") == Some(v)
  {
    var line := NameKey + v + "\"";
    assert line[..|NameKey|] == NameKey;
    assert line[|NameKey|..|line| - 1] == v;
  }

  lemma BinRegroup(t: string, n: string, nl: string, pl: string, rest: string, tail: string)
    ensures t + n + nl + n + pl + n + rest + tail == t + n + nl + n + (pl + n + rest + tail)
  {
  }

  /** A block's piece declares the block's target name, with or without a final line break. */
  lemma BinPieceName(id: string, tail: string)
    requires PlainText(id)
    ensures PieceName(BinPiece(id) + tail) == Some(id)
  {
    var nameLine := NameKey + id + "\"";
    InnerLine(NameKey, id, "\"");
    BinRegroup(BinTable, NL, nameLine, TargetPathKey + id + ".rs\"", TestLine + NL + DocLine, tail);
    assert BinPiece(id) + tail
      == BinTable + NL + nameLine + NL + (TargetPathKey + id + ".rs\"" + NL + (TestLine + NL + DocLine) + tail);
    SecondLineOf(BinTable, nameLine, TargetPathKey + id + ".rs\"" + NL + (TestLine + NL + DocLine) + tail);
    NameOfLine(id);
  }

  /** How pieces (five of them, then one per target) joined by blank lines split. */
  lemma SplitLayout(hp: seq<string>, ids: seq<string>, s: string)
    requires |hp| == 5 && s == Join(hp + BinPieces(ids), BlankLine) + NL
    requires forall k | 0 <= k < |hp + BinPieces(ids)| :: Piece((hp + BinPieces(ids))[k])
    ensures var ps := SplitOn(s, BlankLine);
      |ps| == 5 + |ids| && ps[0] == hp[0] && ps[3] == hp[3]
      && forall k | 5 <= k < |ps| :: ps[k] == BinPiece(ids[k - 5]) + (if k < |ps| - 1 then [] else NL)
  {
    var mp := hp + BinPieces(ids);
    SplitPieces(mp);
    var ps := SplitOn(s, BlankLine);
    forall k | 5 <= k < |ps|
      ensures ps[k] == BinPiece(ids[k - 5]) + (if k < |ps| - 1 then [] else NL)
    {
      assert mp[k] == BinPiece(ids[k - 5]);
      if k < |ps| - 1 {
        assert ps[k] == mp[k] == BinPiece(ids[k - 5]) + [];
      }
    }
  }

  /** How a manifest made of the header and some blocks splits at blank lines. */
  lemma CanonicalSplit(c: string, ids: seq<string>)
    requires PlainText(c) && forall k | 0 <= k < |ids| :: PlainText(ids[k])
    ensures var ps := SplitOn(Header(c) + Blocks(ids), BlankLine);
      |ps| == 5 + |ids| && ps[0] == PackagePiece(c) && ps[3] == CratePiece(c)
      && forall k | 5 <= k < |ps| :: ps[k] == BinPiece(ids[k - 5]) + (if k < |ps| - 1 then [] else NL)
  {
    ManifestLayout(c, ids);
    ManifestPiecesArePieces(c, ids);
    SplitLayout(HeaderPieces(c), ids, Header(c) + Blocks(ids));
  }

  /** A text that splits into five pieces and then one block piece per target is
      read as declaring exactly those targets. */
  lemma ScanLayout(s: string, ids: seq<string>)
    requires forall k | 0 <= k < |ids| :: PlainText(ids[k])
    requires var ps := SplitOn(s, BlankLine);
      |ps| == 5 + |ids|
      && forall k | 5 <= k < |ps| :: ps[k] == BinPiece(ids[k - 5]) + (if k < |ps| - 1 then [] else NL)
    ensures Scannable(s) && ScannedNames(s) == ids
  {
    var ps := SplitOn(s, BlankLine);
    forall k | 5 <= k < |ps|
      ensures PieceName(ps[k]) == Some(ids[k - 5])
    {
      BinPieceName(ids[k - 5], if k < |ps| - 1 then [] else NL);
    }
    if |ps| > 5 {
      assert forall k | 0 <= k < |ids| :: ps[5..][k] == ps[k + 5];
    }
  }

  /** Reading a manifest made of the header and some blocks finds exactly the blocks'
      names, in order. */
  lemma ScanCanonical(c: string, ids: seq<string>)
    requires PlainText(c) && forall k | 0 <= k < |ids| :: PlainText(ids[k])
    ensures Scannable(Header(c) + Blocks(ids))
    ensures ScannedNames(Header(c) + Blocks(ids)) == ids
  {
    CanonicalSplit(c, ids);
    ScanLayout(Header(c) + Blocks(ids), ids);
  }

  /** The first section of the header declares the package `<crate>-fuzz`; the fourth
      is the dependency on the crate itself, by relative path. */
  lemma HeaderSections(c: string, ids: seq<string>)
    requires PlainText(c) && forall k | 0 <= k < |ids| :: PlainText(ids[k])
    ensures |SplitOn(Header(c) + Blocks(ids), BlankLine)| == 5 + |ids|
    ensures PieceName(SplitOn(Header(c) + Blocks(ids), BlankLine)[0]) == Some(c + "-fuzz")
    ensures SplitOn(Header(c) + Blocks(ids), BlankLine)[3] == "[dependencies." + c + "]" + NL + PathLine
  {
    CanonicalSplit(c, ids);
    PackagePieceName(c);
  }

  lemma TailRegroup(f: string, n: string, v: string, a: string, p: string, e: string)
    ensures f + n + v + n + a + n + p + n + e == f + n + (v + n + a + n + p + n + e)
  {
  }

  lemma PieceRegroup(t: string, n: string, k: string, c: string, f: string, q: string, r: string)
    ensures t + n + k + c + (f + q + n + r) == t + n + (k + (c + f) + q) + n + r
  {
  }

  lemma PackagePieceName(c: string)
    requires PlainText(c)
    ensures PieceName(PackagePiece(c)) == Some(c + "-fuzz")
  {
    var rest := VersionLine + NL + AuthorsLine + NL + PublishLine + NL + EditionLine;
    TailRegroup("-fuzz\"", NL, VersionLine, AuthorsLine, PublishLine, EditionLine);
    assert "-fuzz" + "\"" == "-fuzz\"";
    var nameLine := NameKey + (c + "-fuzz") + "\"";
    PieceRegroup(PackageTable, NL, NameKey, c, "-fuzz", "\"", rest);
    PlainTextAppend(c, "-fuzz");
    InnerLine(NameKey, c + "-fuzz", "\"");
    SecondLineOf(PackageTable, nameLine, rest);
    NameOfLine(c + "-fuzz");
  }

  // ------------------------------------------------------------- registration

  /** The manifest after one registration of `id`: created with the header and the
      block, or, when it exists, extended with the block unless the scan finds `id`. */
  function Register(contents: Option<string>, c: string, id: string): string
    requires contents.Some? ==> Scannable(contents.value)
  {
    match contents
    case None =>
      CargoTomlTemplatePrefix + c + CargoTomlTemplateInfix + c + CargoTomlTemplatePostfix
      + (TargetTemplatePrefix + id + TargetTemplateInfix + id + TargetTemplatePostfix)
    case Some(s) => if id in ScannedNames(s) then s else s + Block(id)
  }

  /** Creating the manifest writes the header and the target's block. */
  lemma RegisterCreate(c: string, id: string)
    ensures Register(None, c, id) == Header(c) + Blocks([id])
  {
    SnocFacts([], [], id);
    assert [] + [id] == [id];
  }

  /** On a manifest made of the header and blocks, a registration appends a block
      exactly when the name is new. */
  lemma RegisterCanonical(c: string, ids: seq<string>, id: string)
    requires PlainText(c) && forall k | 0 <= k < |ids| :: PlainText(ids[k])
    ensures Scannable(Header(c) + Blocks(ids))
    ensures Register(Some(Header(c) + Blocks(ids)), c, id)
      == Header(c) + Blocks(if id in ids then ids else ids + [id])
  {
    ScanCanonical(c, ids);
    SnocFacts([], ids, id);
    ConcatAssoc(Header(c), Blocks(ids), Block(id));
  }

  /** Appending the block of a new name keeps the manifest canonical. */
  lemma AppendNew(c: string, ids: seq<string>, id: string)
    requires PlainText(c) && PlainText(id) && forall k | 0 <= k < |ids| :: PlainText(ids[k])
    ensures Header(c) + Blocks(ids) + Block(id) == Header(c) + Blocks(ids + [id])
    ensures forall k | 0 <= k < |ids + [id]| :: PlainText((ids + [id])[k])
    ensures Scannable(Header(c) + Blocks(ids + [id]))
  {
    SnocFacts([], ids, id);
    ConcatAssoc(Header(c), Blocks(ids), Block(id));
    PlainSnoc(ids, id);
    ScanCanonical(c, ids + [id]);
  }

  lemma PlainSnoc(ids: seq<string>, id: string)
    requires PlainText(id) && forall k | 0 <= k < |ids| :: PlainText(ids[k])
    ensures forall k | 0 <= k < |ids + [id]| :: PlainText((ids + [id])[k])
  {
    var ids' := ids + [id];
    assert forall k | 0 <= k < |ids'| :: ids'[k] == if k < |ids| then ids[k] else id;
  }

  /** The distinct names of a sequence, each at its first occurrence. */
  function Dedup(ids: seq<string>): seq<string>
  {
    if ids == [] then []
    else
      var d := Dedup(ids[..|ids| - 1]);
      if ids[|ids| - 1] in d then d else d + [ids[|ids| - 1]]
  }

  /** `Dedup` keeps every name, adds none, and repeats none. */
  lemma {:induction false} DedupFacts(ids: seq<string>)
    ensures forall x :: x in Dedup(ids) <==> x in ids
    ensures forall i, j | 0 <= i < j < |Dedup(ids)| :: Dedup(ids)[i] != Dedup(ids)[j]
  {
    if ids != [] {
      var init := ids[..|ids| - 1];
      DedupFacts(init);
      assert ids == init + [ids[|ids| - 1]];
    }
  }

  lemma DedupPlain(ids: seq<string>)
    requires forall k | 0 <= k < |ids| :: PlainText(ids[k])
    ensures forall k | 0 <= k < |Dedup(ids)| :: PlainText(Dedup(ids)[k])
  {
    DedupFacts(ids);
    forall k | 0 <= k < |Dedup(ids)|
      ensures PlainText(Dedup(ids)[k])
    {
      assert Dedup(ids)[k] in ids;
    }
  }

  /** The manifest after registering `ids` in turn, starting without one. Its closed
      form: the header, then one block per distinct name in order of first registration. */
  function History(c: string, ids: seq<string>): (r: Option<string>)
    requires PlainText(c) && forall k | 0 <= k < |ids| :: PlainText(ids[k])
    ensures ids == [] ==> r.None?
    ensures ids != [] ==> r == Some(Header(c) + Blocks(Dedup(ids)))
  {
    if ids == [] then None
    else
      var init, id := ids[..|ids| - 1], ids[|ids| - 1];
      var prev := History(c, init);
      HistoryStep(c, ids);
      Some(Register(prev, c, id))
  }

  lemma HistoryStep(c: string, ids: seq<string>)
    requires PlainText(c) && forall k | 0 <= k < |ids| :: PlainText(ids[k])
    requires ids != []
    ensures var init, id := ids[..|ids| - 1], ids[|ids| - 1];
      (init == [] ==> Register(None, c, id) == Header(c) + Blocks(Dedup(ids)))
      && (init != [] ==>
            Scannable(Header(c) + Blocks(Dedup(init)))
            && Register(Some(Header(c) + Blocks(Dedup(init))), c, id) == Header(c) + Blocks(Dedup(ids)))
  {
    var init, id := ids[..|ids| - 1], ids[|ids| - 1];
    if init == [] {
      RegisterCreate(c, id);
      assert Dedup(ids) == [id];
    } else {
      DedupPlain(init);
      RegisterCanonical(c, Dedup(init), id);
    }
  }

  /** Registering a name right after registering it changes nothing. */
  lemma RegisterIdempotent(c: string, ids: seq<string>, id: string)
    requires PlainText(c) && PlainText(id) && forall k | 0 <= k < |ids| :: PlainText(ids[k])
    ensures History(c, ids + [id, id]) == History(c, ids + [id])
  {
    var once := ids + [id];
    assert (ids + [id, id])[..|ids| + 1] == once;
    assert Dedup(once)[|Dedup(once)| - 1] == id || id in Dedup(once[..|once| - 1]);
    DedupFacts(once);
    assert id in Dedup(once);
  }

  /** After any sequence of registrations the header is as written at creation, and
      the manifest declares every registered name exactly once, and nothing else. */
  lemma RegistrationsDeclareEachNameOnce(c: string, ids: seq<string>)
    requires PlainText(c) && forall k | 0 <= k < |ids| :: PlainText(ids[k])
    requires ids != []
    ensures History(c, ids).Some? && Header(c) <= History(c, ids).value
    ensures Scannable(History(c, ids).value)
    ensures forall x :: x in ScannedNames(History(c, ids).value) <==> x in ids
    ensures var names := ScannedNames(History(c, ids).value);
      forall i, j | 0 <= i < j < |names| :: names[i] != names[j]
  {
    DedupPlain(ids);
    DedupFacts(ids);
    ScanCanonical(c, Dedup(ids));
  }

  /** The scan of an existing manifest: whether some `[[bin]]` section past the
      five fixed ones is named `ident`. Every section is inspected. */
  method ManifestDeclares(buffer: string, ident: string) returns (found: bool)
    requires Scannable(buffer)
    ensures found <==> ident in ScannedNames(buffer)
  {
    var parts := SplitOn(buffer, BlankLine);
    ghost var names := ScannedNames(buffer);
    found := false;
    var i := 5;
    while i < |parts|
      invariant 5 <= i <= 5 + |names|
      invariant found <==> ident in names[..i - 5]
    {
      var name := PieceName(parts[i]).value;
      assert names[..i - 4] == names[..i - 5] + [name];
      found := found || name == ident;
      i := i + 1;
    }
    assert names[..i - 5] == names;
  }

  // ------------------------------------------------------- the manifest file

  /** Errors that creating the manifest can report other than "already exists". */
  datatype IoError = PermissionDenied | NotFound | OtherIoError

  datatype WriteOutcome = Written | Failed(error: IoError)

  /** The manifest file's invariant: a missing file declares no target; an existing
      one is the header followed by one block per target, the targets being
      distinct plain names. */
  ghost predicate Canonical(c: string, ts: seq<string>, contents: Option<string>)
  {
    (forall k | 0 <= k < |ts| :: PlainText(ts[k]))
    && (forall i, j | 0 <= i < j < |ts| :: ts[i] != ts[j])
    && (contents.None? ==> ts == [])
    && (contents.Some? ==>
          ts != [] && contents.value == Header(c) + Blocks(ts) && Scannable(contents.value))
  }

  /** The manifest as created declares its one target. */
  lemma CreateValid(c: string, id: string)
    requires PlainText(c) && PlainText(id)
    ensures Canonical(c, [id], Some(Register(None, c, id)))
  {
    RegisterCreate(c, id);
    ScanCanonical(c, [id]);
  }

  /** Appending the block of a name not yet declared keeps the manifest canonical. */
  lemma AppendValid(c: string, ids: seq<string>, id: string)
    requires PlainText(c) && PlainText(id) && Canonical(c, ids, Some(Header(c) + Blocks(ids)))
    requires id !in ids
    ensures Canonical(c, ids + [id], Some(Header(c) + Blocks(ids) + Block(id)))
  {
    AppendNew(c, ids, id);
    forall i, j | 0 <= i < j < |ids + [id]|
      ensures (ids + [id])[i] != (ids + [id])[j]
    {
      if j == |ids| {
        assert (ids + [id])[i] == ids[i];
      }
    }
  }

  /** The text of a new manifest: the package template, then the target's block. */
  method CreateManifest(c: string, id: string) returns (created: string)
    requires PlainText(c) && PlainText(id)
    ensures created == Register(None, c, id)
    ensures Canonical(c, [id], Some(created))
  {
    created := CargoTomlTemplatePrefix + c + CargoTomlTemplateInfix + c + CargoTomlTemplatePostfix
      + (TargetTemplatePrefix + id + TargetTemplateInfix + id + TargetTemplatePostfix);
    CreateValid(c, id);
  }

  /** One registration on the manifest's value: creation when there is no file yet,
      the guarded append otherwise; `registered` is the new list of targets. */
  method Update(c: string, ghost ts: seq<string>, current: Option<string>, id: string)
    returns (updated: string, ghost registered: seq<string>)
    requires PlainText(c) && PlainText(id) && Canonical(c, ts, current)
    ensures updated == Register(current, c, id)
    ensures registered == if id in ts then ts else ts + [id]
    ensures Canonical(c, registered, Some(updated))
  {
    match current {
      case None =>
        updated := CreateManifest(c, id);
        registered := [id];
        assert ts + [id] == [id];
      case Some(buffer) =>
        var appended;
        updated, appended := AppendIfAbsent(c, ts, buffer, id);
        registered := if appended then ts + [id] else ts;
    }
  }

  /** The update of an existing manifest: the scan for the target name, then the
      block appended when the name is not declared yet. */
  method AppendIfAbsent(c: string, ghost ts: seq<string>, buffer: string, id: string)
    returns (updated: string, appended: bool)
    requires PlainText(c) && PlainText(id) && Canonical(c, ts, Some(buffer))
    ensures appended <==> id !in ts
    ensures updated == Register(Some(buffer), c, id)
    ensures Canonical(c, if appended then ts + [id] else ts, Some(updated))
  {
    var found := ManifestDeclares(buffer, id);
    ScanCanonical(c, ts);
    updated, appended := buffer, !found;
    if !found {
      AppendValid(c, ts, id);
      updated := buffer + Block(id);
    }
  }

  /** The fuzz manifest of one crate, as a file that exists or not. */
  class FuzzManifest {
    const crateName: string
    var contents: Option<string>
    /** The targets the manifest declares, in order of registration. */
    ghost var targets: seq<string>

    ghost predicate Valid()
      reads this
    {
      PlainText(crateName) && Canonical(crateName, targets, contents)
    }

    constructor (crateName: string)
      requires PlainText(crateName)
      ensures Valid() && this.crateName == crateName && contents.None? && targets == []
    {
      this.crateName := crateName;
      contents := None;
      targets := [];
    }

    /** Registers the target for function `fnName` in module `attr`. Registrations
        are serialised by the file lock, so each is one atomic step here.
        `createError` is what creating the file reports when that fails for a reason
        other than the file existing already. */
    method WriteCargoToml(fnName: string, attr: seq<string>, createError: Option<IoError>)
      returns (res: WriteOutcome)
      requires Valid()
      requires IdentText(fnName) && forall k | 0 <= k < |attr| :: IdentText(attr[k])
      modifies this
      ensures Valid()
      ensures createError.Some? ==>
        res == Failed(createError.value) && contents == old(contents) && targets == old(targets)
      ensures createError.None? ==>
        res == Written
        && contents == Some(Register(old(contents), crateName, TargetName(fnName, attr)))
        && targets == if TargetName(fnName, attr) in old(targets) then old(targets)
                      else old(targets) + [TargetName(fnName, attr)]
    {
      var ident := TargetName(fnName, attr);
      TargetNamePlain(fnName, attr);
      if createError.Some? {
        return Failed(createError.value);
      }
      var updated, registered := Update(crateName, targets, contents, ident);
      contents := Some(updated);
      targets := registered;
      return Written;
    }
  }
}
