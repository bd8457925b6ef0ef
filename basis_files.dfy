/** BasisFileSet (chemistry/qc/basis/files.cc): locates the library file
    of a named basis set.  The basis name is turned into a file name, each
    of two directories is tried in turn, and every looked-up name is
    recorded so that a later lookup of the same name does not search
    again. */
module BasisFiles {
  import opened Wrappers

  predicate IsUpper(c: char)
  {
    'A' <= c <= 'Z'
  }

  /** tolower on an upper-case ASCII letter. */
  function Lower(c: char): (r: char)
    requires IsUpper(c)
    ensures 'a' <= r <= 'z' && r as int - c as int == 32
  {
    (c as int + 32) as char
  }

  /** The file-name character the basis-name character becomes. */
  function MangleChar(c: char): (r: char)
  {
    if IsUpper(c) then Lower(c)
    else if c == ',' || c == ' ' then '_'
    else if c == '+' then 'P'
    else if c == '*' then 'S'
    else if c == '(' then 'L'
    else if c == ')' then 'R'
    else c
  }

  /** The file name of a basis name, one character for one. */
  function Mangle(s: string): (r: string)
  {
    seq(|s|, i requires 0 <= i < |s| => MangleChar(s[i]))
  }

  /** A file name holds none of the characters the mangling replaces, and
      its only upper-case letters are the ones standing for + * ( ). */
  lemma {:induction false} MangleClean(s: string)
    ensures |Mangle(s)| == |s|
    ensures forall i :: 0 <= i < |s| ==> Mangle(s)[i] !in {',', ' ', '+', '*', '(', ')'}
    ensures forall i :: 0 <= i < |s| && IsUpper(Mangle(s)[i]) ==> Mangle(s)[i] in {'P', 'S', 'L', 'R'}
  {
  }

  /** What two basis names must share to get the same file: case is
      ignored and comma, space and underscore are not told apart. */
  function Fold(c: char): (r: char)
    ensures !IsUpper(r) && r != ',' && r != ' '
  {
    if IsUpper(c) then Lower(c) else if c == ',' || c == ' ' then '_' else c
  }

  /** The mangling of one character is the folded character with + * ( )
      spelled P S L R; on folded characters that spelling is one to one. */
  lemma {:induction false} MangleCharFold(a: char, b: char)
    ensures MangleChar(a) == MangleChar(b) <==> Fold(a) == Fold(b)
  {
    var fa := Fold(a);
    var fb := Fold(b);
    assert MangleChar(a) == Spell(fa);
    assert MangleChar(b) == Spell(fb);
    SpellInjective(fa, fb);
  }

  function Spell(c: char): char
  {
    if c == '+' then 'P' else if c == '*' then 'S' else if c == '(' then 'L' else if c == ')' then 'R' else c
  }

  lemma {:induction false} SpellInjective(a: char, b: char)
    requires !IsUpper(a) && !IsUpper(b)
    ensures Spell(a) == Spell(b) <==> a == b
  {
  }

  /** Two basis names share a file name exactly when they agree up to
      case and up to the choice among comma, space and underscore. */
  lemma {:induction false} MangleCollision(s: string, t: string)
    ensures Mangle(s) == Mangle(t) <==> |s| == |t| && forall i :: 0 <= i < |s| ==> Fold(s[i]) == Fold(t[i])
  {
    if |s| == |t| {
      forall i | 0 <= i < |s|
        ensures Mangle(s)[i] == Mangle(t)[i] <==> Fold(s[i]) == Fold(t[i])
      {
        MangleCharFold(s[i], t[i]);
      }
      if Mangle(s) != Mangle(t) {
        var i :| 0 <= i < |s| && Mangle(s)[i] != Mangle(t)[i];
        assert Fold(s[i]) != Fold(t[i]);
      }
    } else {
      assert |Mangle(s)| != |Mangle(t)|;
    }
  }

  /** The character loop that builds the file name. */
  method MangleName(basisname: string) returns (filename: string)
    ensures filename == Mangle(basisname)
  {
    var buf := new char[|basisname|];
    for i := 0 to |basisname|
      invariant forall k :: 0 <= k < i ==> buf[k] == MangleChar(basisname[k])
    {
      var c := basisname[i];
      if IsUpper(c) {
        buf[i] := Lower(c);
      } else if c == ',' || c == ' ' {
        buf[i] := '_';
      } else if c == '+' {
        buf[i] := 'P';
      } else if c == '*' {
        buf[i] := 'S';
      } else if c == '(' {
        buf[i] := 'L';
      } else if c == ')' {
        buf[i] := 'R';
      } else {
        buf[i] := c;
      }
    }
    filename := buf[..];
  }

  /** The path tried in a directory. */
  function BasisPath(dir: string, filename: string): (p: string)
    ensures |p| == |dir| + |filename| + 4
    ensures p[..|dir|] == dir && p[|dir|] == '/' && p[|p| - 3..] == ".kv"
  {
    dir + "/" + filename + ".kv"
  }

  /** The keyval a lookup hands back: the caller's own, or the caller's
      aggregated with the library file found at the path. */
  datatype Found = Given | AggregateWith(path: string)

  /** The directory search from directory i on: the first directory that
      is set and holds a readable file wins. */
  function Search(dirs: seq<Option<string>>, i: nat, filename: string, readable: string -> bool): (r: Found)
    requires i <= |dirs|
    decreases |dirs| - i
  {
    if i == |dirs| then Given
    else if dirs[i].Some? && readable(BasisPath(dirs[i].value, filename)) then AggregateWith(BasisPath(dirs[i].value, filename))
    else Search(dirs, i + 1, filename, readable)
  }

  /** The search finds a file exactly when some set directory, from i on,
      holds a readable one, and what it finds is the first such. */
  lemma {:induction false} SearchFinds(dirs: seq<Option<string>>, i: nat, filename: string, readable: string -> bool)
    requires i <= |dirs|
    ensures Search(dirs, i, filename, readable).AggregateWith? ==>
              exists d :: i <= d < |dirs| && dirs[d].Some? && Search(dirs, i, filename, readable).path == BasisPath(dirs[d].value, filename)
                && readable(BasisPath(dirs[d].value, filename))
                && forall e :: i <= e < d && dirs[e].Some? ==> !readable(BasisPath(dirs[e].value, filename))
    ensures Search(dirs, i, filename, readable) == Given <==>
              forall d :: i <= d < |dirs| && dirs[d].Some? ==> !readable(BasisPath(dirs[d].value, filename))
    decreases |dirs| - i
  {
    if i < |dirs| {
      SearchFinds(dirs, i + 1, filename, readable);
      if !(dirs[i].Some? && readable(BasisPath(dirs[i].value, filename))) {
        var r := Search(dirs, i + 1, filename, readable);
        if r.AggregateWith? {
          var d :| i + 1 <= d < |dirs| && dirs[d].Some? && r.path == BasisPath(dirs[d].value, filename)
                   && readable(BasisPath(dirs[d].value, filename))
                   && forall e :: i + 1 <= e < d && dirs[e].Some? ==> !readable(BasisPath(dirs[e].value, filename));
          assert forall e :: i <= e < d && dirs[e].Some? ==> !readable(BasisPath(dirs[e].value, filename));
        }
      }
    }
  }

  /** An earlier directory takes precedence: when the first directory is
      set and its file is readable, the second is never consulted. */
  lemma {:induction false} FirstDirectoryWins(dirs: seq<Option<string>>, filename: string, readable: string -> bool)
    requires |dirs| == 2 && dirs[0].Some? && readable(BasisPath(dirs[0].value, filename))
    ensures Search(dirs, 0, filename, readable) == AggregateWith(BasisPath(dirs[0].value, filename))
  {
  }

  /** The library directory: the environment variable's value after its
      first '=' (all of it when it has none) with "/basis" appended, or
      else the installed directory when it exists and the source tree's
      otherwise. */
  function LibraryDir(env: Option<string>, installed: string, source: string, installedExists: bool): (r: string)
    ensures |r| >= 6 && r[|r| - 6..] == "/basis"
  {
    if env.Some? then AfterEquals(env.value, 0) + "/basis"
    else if installedExists then installed + "/basis"
    else source + "/basis"
  }

  /** strchr then skip: the text after the first '=' at or beyond i, or the
      whole string when there is none. */
  function AfterEquals(s: string, i: nat): (r: string)
    requires i <= |s|
    ensures (forall k :: i <= k < |s| ==> s[k] != '=') ==> r == s
    ensures forall k :: i <= k < |s| && s[k] == '=' && (forall m :: i <= m < k ==> s[m] != '=') ==> r == s[k + 1..]
    decreases |s| - i
  {
    if i == |s| then s else if s[i] == '=' then s[i + 1..] else AfterEquals(s, i + 1)
  }

  class BasisFileSet {
    /** The basisdir keyword and the library directory, in search order. */
    const dirs: seq<Option<string>>
    /** Every basis name looked up so far, in order. */
    var basissets: seq<string>

    constructor (basisdir: Option<string>, env: Option<string>, installed: string, source: string, installedExists: bool)
      ensures dirs == [basisdir, Some(LibraryDir(env, installed, source, installedExists))]
      ensures basissets == []
    {
      dirs := [basisdir, Some(LibraryDir(env, installed, source, installedExists))];
      basissets := [];
    }

    /** keyval: a name looked up before hands back the caller's keyval and
        changes nothing; otherwise the directories are searched for the
        mangled file name and the name is recorded whether a file was
        found or not. */
    method Keyval(basisname: string, readable: string -> bool) returns (r: Found)
      requires |dirs| == 2
      modifies this
      ensures basisname in old(basissets) ==> r == Given && basissets == old(basissets)
      ensures basisname !in old(basissets) ==>
                r == Search(dirs, 0, Mangle(basisname), readable) && basissets == old(basissets) + [basisname]
    {
      var known := Recorded(basissets, basisname);
      if known {
        return Given;
      }
      var filename := MangleName(basisname);
      r := FindFile(dirs, filename, readable);
      basissets := basissets + [basisname];
    }
  }

  /** The registry scan: whether the name was looked up before. */
  method Recorded(names: seq<string>, basisname: string) returns (found: bool)
    ensures found <==> basisname in names
  {
    var i := 0;
    while i < |names|
      invariant 0 <= i <= |names|
      invariant basisname !in names[..i]
    {
      if basisname == names[i] {
        return true;
      }
      assert names[..i + 1] == names[..i] + [names[i]];
      i := i + 1;
    }
    assert names[..i] == names;
    return false;
  }

  /** The directory loop: skips unset directories and stops at the first
      readable file. */
  method FindFile(dirs: seq<Option<string>>, filename: string, readable: string -> bool) returns (r: Found)
    ensures r == Search(dirs, 0, filename, readable)
  {
    r := Given;
    var i := 0;
    while i < |dirs|
      invariant 0 <= i <= |dirs|
      invariant r == Given ==> Search(dirs, i, filename, readable) == Search(dirs, 0, filename, readable)
      invariant i < |dirs| ==> r == Given
    {
      if dirs[i].None? {
        i := i + 1;
        continue;
      }
      var path := BasisPath(dirs[i].value, filename);
      if readable(path) {
        r := AggregateWith(path);
        return;
      }
      i := i + 1;
    }
  }

  /** A second lookup of the same name is answered from the record. */
  method LookupTwice(set0: BasisFileSet, basisname: string, readable: string -> bool) returns (second: Found)
    requires |set0.dirs| == 2
    modifies set0
    ensures second == Given
    ensures basisname in set0.basissets
  {
    var first := set0.Keyval(basisname, readable);
    second := set0.Keyval(basisname, readable);
  }
}
