/** Which inputs the script processes and where it writes each prediction: the
    extension test on the input's basename, POSIX `basename` and `join`,
    Python's `str.replace`, and the list of output paths of the folder case. */
module Paths {

  /** An occurrence of `p` starts at position `i` of `s`. */
  predicate OccursAt(s: string, p: string, i: nat) {
    i + |p| <= |s| && s[i..i + |p|] == p
  }

  /** `sub in s` on Python strings: `sub` occurs somewhere in `s`. */
  predicate Contains(s: string, sub: string) {
    exists i: nat :: i <= |s| && OccursAt(s, sub, i)
  }

  /** The extension test of the script: the input is taken to be a folder exactly
      when none of '.nii.gz', '.nii', '.mgz', '.npz' occurs in its basename. */
  predicate IsFolderInput(basename: string) {
    !Contains(basename, ".nii.gz") && !Contains(basename, ".nii") &&
    !Contains(basename, ".mgz") && !Contains(basename, ".npz")
  }

  /** A position where '.nii.gz' starts is a position where '.nii' starts. */
  lemma NiiGzHasNii(s: string)
    requires Contains(s, ".nii.gz")
    ensures Contains(s, ".nii")
  {
    var i: nat :| i <= |s| && OccursAt(s, ".nii.gz", i);
    assert s[i..i + 4] == s[i..i + 7][..4];
    assert OccursAt(s, ".nii", i);
  }

  /** The '.nii.gz' test is subsumed by the '.nii' test: the folder branch is
      taken exactly when none of '.nii', '.mgz', '.npz' occurs in the basename. */
  lemma FolderInputIff(basename: string)
    ensures IsFolderInput(basename) <==>
            !Contains(basename, ".nii") && !Contains(basename, ".mgz") && !Contains(basename, ".npz")
  {
    if Contains(basename, ".nii.gz") {
      NiiGzHasNii(basename);
    }
  }

  /** `os.path.basename`: everything after the last '/'. */
  function Basename(p: string): string {
    if p == [] then []
    else if p[|p| - 1] == '/' then []
    else Basename(p[..|p| - 1]) + [p[|p| - 1]]
  }

  /** The basename is the last component of the path: it holds no '/', it ends
      the path, and it is the whole path or follows a '/'. */
  lemma {:induction false} BasenameIsLastComponent(p: string)
    ensures var b := Basename(p);
            '/' !in b && |b| <= |p| && p[|p| - |b|..] == b &&
            (|b| < |p| ==> p[|p| - |b| - 1] == '/')
  {
    if p != [] && p[|p| - 1] != '/' {
      var init := p[..|p| - 1];
      BasenameIsLastComponent(init);
      var b := Basename(init);
      assert Basename(p) == b + [p[|p| - 1]];
      assert p[|p| - |b| - 1..] == init[|init| - |b|..] + [p[|p| - 1]];
      if |b| + 1 < |p| {
        assert p[|p| - (|b| + 1) - 1] == init[|init| - |b| - 1];
      }
    }
  }

  /** A name without '/' is its own basename, whatever directory precedes it. */
  lemma {:induction false} BasenameAfterSlash(dir: string, name: string)
    requires '/' !in name
    ensures Basename(dir + "/" + name) == name
  {
    var p := dir + "/" + name;
    if name == [] {
      assert p[|p| - 1] == '/';
    } else {
      var init := name[..|name| - 1];
      assert p[..|p| - 1] == dir + "/" + init;
      assert '/' !in init by {
        forall c | c in init ensures c != '/' {
          var m :| 0 <= m < |init| && init[m] == c;
          assert name[m] == c;
        }
      }
      BasenameAfterSlash(dir, init);
      assert init + [name[|name| - 1]] == name;
    }
  }

  /** `os.path.join(a, b)` for POSIX paths: an absolute `b` replaces `a`; no
      separator is added after an empty `a` or one that already ends in '/'. */
  function Join(a: string, b: string): string {
    if |b| > 0 && b[0] == '/' then b
    else if a == [] || a[|a| - 1] == '/' then a + b
    else a + "/" + b
  }

  /** The joined path ends with the name, and unless the name is absolute what
      precedes it is the directory, followed by a '/' when it is non-empty and
      lacked one; an empty directory adds nothing. */
  lemma JoinEndsWithName(a: string, b: string)
    ensures var r := Join(a, b);
            |b| <= |r| && r[|r| - |b|..] == b &&
            ((|b| > 0 && b[0] == '/') || r[..|r| - |b|] == a || r[..|r| - |b|] == a + "/")
    ensures var r := Join(a, b);
            a != [] && (|b| == 0 || b[0] != '/') ==> r[..|r| - |b|] == (if a[|a| - 1] == '/' then a else a + "/")
    ensures a == [] && (|b| == 0 || b[0] != '/') ==> Join(a, b) == b
  {
    var r := Join(a, b);
    if !(|b| > 0 && b[0] == '/') {
      if a == [] || a[|a| - 1] == '/' {
        assert r == a + b;
      } else {
        assert r == (a + "/") + b;
      }
    }
  }

  /** Joining a name without '/' to a directory keeps the name as the basename. */
  lemma JoinBasename(a: string, name: string)
    requires '/' !in name
    ensures Basename(Join(a, name)) == name
  {
    if a == [] {
      assert Join(a, name) == name;
      BasenameIdentity(name);
    } else if a[|a| - 1] == '/' {
      var d := a[..|a| - 1];
      assert a + name == d + "/" + name;
      BasenameAfterSlash(d, name);
    } else {
      BasenameAfterSlash(a, name);
    }
  }

  /** A string without '/' is its own basename. */
  lemma {:induction false} BasenameIdentity(name: string)
    requires '/' !in name
    ensures Basename(name) == name
  {
    if name != [] {
      var init := name[..|name| - 1];
      assert '/' !in init by {
        forall c | c in init ensures c != '/' {
          var m :| 0 <= m < |init| && init[m] == c;
          assert name[m] == c;
        }
      }
      BasenameIdentity(init);
      assert init + [name[|name| - 1]] == name;
    }
  }

  /** Python's `s.replace(p, r)`: scanning from the left, every non-overlapping
      occurrence of `p` is replaced by `r`. */
  function Replace(s: string, p: string, r: string): string
    requires |p| > 0
    decreases |s|
  {
    if |s| < |p| then s
    else if s[..|p|] == p then r + Replace(s[|p|..], p, r)
    else [s[0]] + Replace(s[1..], p, r)
  }

  /** Moving one character to the front shifts every occurrence by one. */
  lemma OccursAtShift(s: string, p: string, i: nat)
    requires |s| > 0
    ensures OccursAt(s[1..], p, i) == OccursAt(s, p, i + 1)
  {
    if i + 1 + |p| <= |s| {
      assert s[1..][i..i + |p|] == s[i + 1..i + 1 + |p|];
    }
  }

  /** When no occurrence of `p` starts inside the prefix `x`, replacing in `x + y`
      leaves `x` alone and replaces in `y`. */
  lemma {:induction false} ReplaceAfterPrefix(x: string, y: string, p: string, r: string)
    requires |p| > 0
    requires forall i: nat :: i < |x| ==> !OccursAt(x + y, p, i)
    ensures Replace(x + y, p, r) == x + Replace(y, p, r)
  {
    if x != [] {
      var s := x + y;
      assert s[1..] == x[1..] + y;
      forall i: nat | i < |x[1..]| ensures !OccursAt(x[1..] + y, p, i) {
        OccursAtShift(s, p, i);
      }
      ReplaceAfterPrefix(x[1..], y, p, r);
      if |s| >= |p| {
        assert !OccursAt(s, p, 0);
        assert s[0..|p|] == s[..|p|];
        assert Replace(s, p, r) == [s[0]] + Replace(s[1..], p, r);
        assert [s[0]] + x[1..] == x;
      } else {
        assert Replace(y, p, r) == y;
      }
    } else {
      assert x + y == y;
    }
  }

  /** A string in which `p` does not occur is returned unchanged. */
  lemma ReplaceAbsent(s: string, p: string, r: string)
    requires |p| > 0
    requires !Contains(s, p)
    ensures Replace(s, p, r) == s
  {
    assert s + [] == s;
    ReplaceAfterPrefix(s, [], p, r);
  }

  /** The three chained replacements of the folder case: '_SynthSR' is inserted
      before every '.nii', then every '.mgz', then every '.npz'. */
  function Rename(path: string): string {
    Replace(Replace(Replace(path, ".nii", Tagged(".nii")), ".mgz", Tagged(".mgz")), ".npz", Tagged(".npz"))
  }

  /** The extensions the script supports. */
  const Extensions: seq<string> := [".nii.gz", ".nii", ".mgz", ".npz"]

  /** The three extensions the folder case rewrites. */
  predicate IsRewritten(e: string) {
    e == ".nii" || e == ".mgz" || e == ".npz"
  }

  /** '_SynthSR' followed by the pattern it tags. */
  function Tagged(p: string): string {
    "_SynthSR" + p
  }

  /** A character that no rewritten extension holds after its leading '.'. */
  predicate IsBreak(c: char) {
    c == '.' || c == '/' || c == '_'
  }

  /** Each rewritten extension is four characters: a '.' and three letters. */
  lemma PatternLayout(p: string)
    requires IsRewritten(p)
    ensures |p| == 4 && p[0] == '.' && !IsBreak(p[1]) && !IsBreak(p[2]) && !IsBreak(p[3])
  {
  }

  /** None of '.nii', '.mgz', '.npz' occurs in `s`. */
  predicate FreeOfExtensions(s: string) {
    !Contains(s, ".nii") && !Contains(s, ".mgz") && !Contains(s, ".npz")
  }

  /** `s` is empty or starts with a break character. */
  predicate StartsWithBreak(s: string) {
    s == [] || IsBreak(s[0])
  }

  /** The boundary between `x` and `t`: `x` ends with '/' or `t` starts with a
      break character, so no rewritten extension can straddle it. */
  predicate BreaksBetween(x: string, t: string) {
    (x != [] && x[|x| - 1] == '/') || StartsWithBreak(t)
  }

  /** No occurrence of `p` starts inside a prefix that holds none, when a break
      separates the prefix from what follows. */
  lemma NoOccurrenceAcross(x: string, t: string, p: string)
    requires IsRewritten(p) && !Contains(x, p)
    requires BreaksBetween(x, t)
    ensures forall i: nat :: i < |x| ==> !OccursAt(x + t, p, i)
  {
    PatternLayout(p);
    forall i: nat | i < |x| ensures !OccursAt(x + t, p, i) {
      if i + 4 <= |x + t| {
        var w := (x + t)[i..i + 4];
        if i + 4 <= |x| {
          assert w == x[i..i + 4];
          assert OccursAt(x + t, p, i) ==> OccursAt(x, p, i);
        } else if x[|x| - 1] == '/' {
          assert w[|x| - 1 - i] == '/';
        } else {
          assert w[|x| - i] == t[0];
        }
      }
    }
  }

  /** A string without '.' holds no rewritten extension. */
  lemma DotFreeLacks(s: string, p: string)
    requires IsRewritten(p) && '.' !in s
    ensures !Contains(s, p)
  {
    PatternLayout(p);
    forall i: nat | i <= |s| ensures !OccursAt(s, p, i) {
      if i + 4 <= |s| {
        assert s[i..i + 4][0] == s[i];
      }
    }
  }

  /** A string without '.' is free of the extensions. */
  lemma DotFreeIsFree(s: string)
    requires '.' !in s
    ensures FreeOfExtensions(s)
  {
    DotFreeLacks(s, ".nii");
    DotFreeLacks(s, ".mgz");
    DotFreeLacks(s, ".npz");
  }

  /** Two strings without `p`, put together at a break, hold no `p`. */
  lemma ConcatLacks(a: string, b: string, p: string)
    requires IsRewritten(p) && !Contains(a, p) && !Contains(b, p)
    requires BreaksBetween(a, b)
    ensures !Contains(a + b, p)
  {
    NoOccurrenceAcross(a, b, p);
    forall i: nat | i <= |a + b| ensures !OccursAt(a + b, p, i) {
      if i >= |a| {
        if i + |p| <= |a + b| {
          assert (a + b)[i..i + |p|] == b[i - |a|..i - |a| + |p|];
        }
        assert OccursAt(a + b, p, i) ==> OccursAt(b, p, i - |a|);
      }
    }
  }

  /** Two strings free of the extensions, put together at a break, are free of them. */
  lemma FreeConcat(a: string, b: string)
    requires FreeOfExtensions(a) && FreeOfExtensions(b)
    requires BreaksBetween(a, b)
    ensures FreeOfExtensions(a + b)
  {
    ConcatLacks(a, b, ".nii");
    ConcatLacks(a, b, ".mgz");
    ConcatLacks(a, b, ".npz");
  }

  /** One pass of `replace` leaves alone a prefix free of the extensions when a
      break separates it from the rest. */
  lemma ReplaceAfterFreePrefix(x: string, t: string, p: string)
    requires IsRewritten(p) && FreeOfExtensions(x)
    requires BreaksBetween(x, t)
    ensures Replace(x + t, p, Tagged(p)) == x + Replace(t, p, Tagged(p))
  {
    NoOccurrenceAcross(x, t, p);
    ReplaceAfterPrefix(x, t, p, Tagged(p));
  }

  /** A pass of `replace` keeps a break character at the front: either the front
      is kept, or it becomes the '_' of '_SynthSR'. */
  lemma ReplaceStartsWithBreak(t: string, p: string)
    requires IsRewritten(p) && StartsWithBreak(t)
    ensures StartsWithBreak(Replace(t, p, Tagged(p)))
  {
    if |t| >= |p| {
      if t[..|p|] == p {
        assert Replace(t, p, Tagged(p))[0] == Tagged(p)[0];
      } else {
        assert Replace(t, p, Tagged(p))[0] == t[0];
      }
    }
  }

  /** The three replacements leave alone a prefix free of the extensions when a
      break separates it from the rest. */
  lemma RenameAfterFreePrefix(x: string, t: string)
    requires FreeOfExtensions(x)
    requires BreaksBetween(x, t)
    ensures Rename(x + t) == x + Rename(t)
  {
    ReplaceAfterFreePrefix(x, t, ".nii");
    var t1 := Replace(t, ".nii", Tagged(".nii"));
    if StartsWithBreak(t) {
      ReplaceStartsWithBreak(t, ".nii");
    }
    ReplaceAfterFreePrefix(x, t1, ".mgz");
    var t2 := Replace(t1, ".mgz", Tagged(".mgz"));
    if StartsWithBreak(t1) {
      ReplaceStartsWithBreak(t1, ".mgz");
    }
    ReplaceAfterFreePrefix(x, t2, ".npz");
  }

  /** One step of the scan: an occurrence at the front is replaced. */
  lemma ReplaceHit(s: string, p: string, r: string)
    requires |p| > 0 && |p| <= |s| && s[..|p|] == p
    ensures Replace(s, p, r) == r + Replace(s[|p|..], p, r)
  {
  }

  /** Inside one rewritten extension followed by anything, another rewritten
      extension can only start at the front, and it does not. */
  lemma NoOtherExtensionInside(e: string, t: string, p: string)
    requires IsRewritten(e) && IsRewritten(p) && e != p
    ensures forall i: nat :: i < |e| ==> !OccursAt(e + t, p, i)
  {
    assert |e| == |p| == 4 && p[0] == '.';
    assert e[1] != '.' && e[2] != '.' && e[3] != '.';
    forall i: nat | i < |e| ensures !OccursAt(e + t, p, i) {
      if i + |p| <= |e + t| {
        var w := (e + t)[i..i + |p|];
        if i == 0 {
          assert w == e;
        } else {
          assert w[0] == e[i];
        }
      }
    }
  }

  /** One pass of `str.replace` with pattern `p` over a prefix free of the
      extensions, a rewritten extension `e` and a tail: the prefix is kept,
      '_SynthSR' goes in front of `e` exactly when `e` is the pattern, and the
      pass continues on the tail. */
  lemma PassOverExtension(x: string, e: string, t: string, p: string)
    requires FreeOfExtensions(x)
    requires IsRewritten(e) && IsRewritten(p)
    ensures Replace(x + e + t, p, Tagged(p)) == (if e == p then x + "_SynthSR" else x) + e + Replace(t, p, Tagged(p))
  {
    assert x + e + t == x + (e + t);
    PatternLayout(e);
    assert (e + t)[0] == e[0];
    ReplaceAfterFreePrefix(x, e + t, p);
    if e == p {
      PassHit(x, e, t);
    } else {
      PassMiss(x, e, t, p);
    }
  }

  /** The pass when the extension is the pattern: '_SynthSR' goes in front. */
  lemma PassHit(x: string, e: string, t: string)
    requires |e| > 0
    ensures x + Replace(e + t, e, Tagged(e)) == x + "_SynthSR" + e + Replace(t, e, Tagged(e))
  {
    assert (e + t)[..|e|] == e && (e + t)[|e|..] == t;
    ReplaceHit(e + t, e, Tagged(e));
  }

  /** The pass when the extension is another one: it is kept as it is. */
  lemma PassMiss(x: string, e: string, t: string, p: string)
    requires IsRewritten(e) && IsRewritten(p) && e != p
    ensures x + Replace(e + t, p, Tagged(p)) == x + e + Replace(t, p, Tagged(p))
  {
    NoOtherExtensionInside(e, t, p);
    ReplaceAfterPrefix(e, t, p, Tagged(p));
  }

  /** Appending '_SynthSR' keeps a string free of the extensions. */
  lemma FreeWithTag(x: string)
    requires FreeOfExtensions(x)
    ensures FreeOfExtensions(x + "_SynthSR")
  {
    DotFreeIsFree("_SynthSR");
    FreeConcat(x, "_SynthSR");
  }

  /** The folder-case renaming puts '_SynthSR' in front of a rewritten extension
      that follows a prefix free of the extensions, and carries on with the rest
      of the path. */
  lemma RenameInsertsTag(x: string, e: string, t: string)
    requires FreeOfExtensions(x)
    requires IsRewritten(e)
    ensures Rename(x + e + t) == x + "_SynthSR" + e + Rename(t)
  {
    FreeWithTag(x);
    var t1 := Replace(t, ".nii", Tagged(".nii"));
    var t2 := Replace(t1, ".mgz", Tagged(".mgz"));
    PassOverExtension(x, e, t, ".nii");
    var x1 := if e == ".nii" then x + "_SynthSR" else x;
    PassOverExtension(x1, e, t1, ".mgz");
    var x2 := if e == ".mgz" then x + "_SynthSR" else x1;
    PassOverExtension(x2, e, t2, ".npz");
  }

  /** A tail shorter than every pattern is left alone. */
  lemma RenameShort(t: string)
    requires |t| < 4
    ensures Rename(t) == t
  {
  }

  /** A rewritten extension at the front of a path gets '_SynthSR'. */
  lemma RenameInsertsTagAtFront(e: string, t: string)
    requires IsRewritten(e)
    ensures Rename(e + t) == "_SynthSR" + e + Rename(t)
  {
    var none: string := [];
    DotFreeIsFree(none);
    RenameInsertsTag(none, e, t);
    assert none + e + t == e + t;
    assert none + "_SynthSR" + e == "_SynthSR" + e;
  }

  /** Each supported extension gets '_SynthSR' in front of it. */
  lemma RenameExtension(ext: string)
    requires ext in Extensions
    ensures Rename(ext) == "_SynthSR" + ext
  {
    if ext == ".nii.gz" {
      assert ext == ".nii" + ".gz";
      RenameInsertsTagAtFront(".nii", ".gz");
      RenameShort(".gz");
    } else {
      assert ext == ext + "";
      RenameInsertsTagAtFront(ext, "");
      RenameShort("");
    }
  }

  /** The prediction path of one image of the folder case:
      `join(out_dir, basename(image))` passed through the three replacements. */
  function OutputPath(outDir: string, image: string): string {
    Rename(Join(outDir, Basename(image)))
  }

  /** Joining two strings free of the extensions gives a path free of them: the
      '/' that `join` may insert is a break. */
  lemma JoinFree(a: string, b: string)
    requires FreeOfExtensions(a) && FreeOfExtensions(b)
    ensures FreeOfExtensions(Join(a, b))
  {
    if !(|b| > 0 && b[0] == '/') {
      if a == [] {
        assert Join(a, b) == b;
      } else if a[|a| - 1] == '/' {
        FreeConcat(a, b);
      } else {
        DotFreeIsFree("/");
        FreeConcat(a, "/");
        assert (a + "/")[|a + "/"| - 1] == '/';
        FreeConcat(a + "/", b);
      }
    }
  }

  /** Joining a name that does not start with '/' and then appending a suffix
      is joining the longer name. */
  lemma JoinAppend(a: string, stem: string, suffix: string)
    requires |suffix| > 0 && suffix[0] != '/'
    requires stem == [] || stem[0] != '/'
    ensures Join(a, stem + suffix) == Join(a, stem) + suffix
  {
    var name := stem + suffix;
    assert name[0] != '/' by {
      if stem == [] { assert name == suffix; } else { assert name[0] == stem[0]; }
    }
    if stem == [] {
      assert name == suffix;
    }
  }

  /** For an output folder and an image stem in which none of '.nii', '.mgz',
      '.npz' occurs, the prediction of `stem + ext` is written to
      `join(out_dir, stem) + '_SynthSR' + ext`. */
  lemma OutputPathOfPlainName(outDir: string, image: string, stem: string, ext: string)
    requires Basename(image) == stem + ext
    requires ext in Extensions
    requires FreeOfExtensions(outDir) && FreeOfExtensions(stem)
    ensures OutputPath(outDir, image) == Join(outDir, stem) + "_SynthSR" + ext
  {
    BasenameIsLastComponent(image);
    assert stem == [] || stem[0] != '/' by {
      if stem != [] { assert stem[0] == (stem + ext)[0]; }
    }
    JoinAppend(outDir, stem, ext);
    JoinFree(outDir, stem);
    RenameWithExtension(Join(outDir, stem), ext);
  }

  /** A supported extension after a path free of the rewritten extensions gets
      '_SynthSR' in front of it, and nothing else changes. */
  lemma RenameWithExtension(x: string, ext: string)
    requires FreeOfExtensions(x)
    requires ext in Extensions
    ensures Rename(x + ext) == x + "_SynthSR" + ext
  {
    assert ext[0] == '.';
    RenameAfterFreePrefix(x, ext);
    RenameExtension(ext);
  }

  /** The replacements also rewrite the directory part of the joined path: when
      the output folder is `dir + dirExt` with `dirExt` one of '.nii', '.mgz',
      '.npz', the prediction is written below `dir + '_SynthSR' + dirExt`, a
      folder other than the output folder. */
  lemma OutputPathRewritesDirectory(dir: string, dirExt: string, image: string, stem: string, ext: string)
    requires FreeOfExtensions(dir) && IsRewritten(dirExt)
    requires Basename(image) == stem + ext
    requires ext in Extensions
    requires FreeOfExtensions(stem)
    ensures OutputPath(dir + dirExt, image) == dir + "_SynthSR" + dirExt + "/" + stem + "_SynthSR" + ext
  {
    BasenameIsLastComponent(image);
    JoinDirectoryAndName(dir, dirExt, stem, ext);
    RenameDirectoryAndName(dir, dirExt, stem, ext);
  }

  /** The output folder ends in an extension, so `join` puts a '/' between it
      and the image's basename. */
  lemma JoinDirectoryAndName(dir: string, dirExt: string, stem: string, ext: string)
    requires IsRewritten(dirExt)
    requires ext in Extensions
    requires '/' !in stem
    ensures Join(dir + dirExt, stem + ext) == dir + dirExt + ("/" + stem + ext)
  {
    var outDir := dir + dirExt;
    assert outDir != [] && outDir[|outDir| - 1] != '/' by {
      assert outDir[|outDir| - 1] == dirExt[3];
    }
    var name := stem + ext;
    assert name[0] != '/' by {
      if stem != [] { assert name[0] == stem[0]; } else { assert name == ext; }
    }
    assert Join(outDir, name) == outDir + "/" + name;
  }

  /** The renaming of the whole joined path: the directory's extension and the
      image's extension each get '_SynthSR'. */
  lemma RenameDirectoryAndName(dir: string, dirExt: string, stem: string, ext: string)
    requires FreeOfExtensions(dir) && IsRewritten(dirExt)
    requires ext in Extensions
    requires FreeOfExtensions(stem)
    ensures Rename(dir + dirExt + ("/" + stem + ext)) == dir + "_SynthSR" + dirExt + "/" + stem + "_SynthSR" + ext
  {
    RenameInsertsTag(dir, dirExt, "/" + stem + ext);
    RenameSlashName(stem, ext);
  }

  /** The renaming of the part after the directory. */
  lemma RenameSlashName(stem: string, ext: string)
    requires ext in Extensions
    requires FreeOfExtensions(stem)
    ensures Rename("/" + stem + ext) == "/" + stem + "_SynthSR" + ext
  {
    DotFreeIsFree("/");
    FreeConcat("/", stem);
    RenameWithExtension("/" + stem, ext);
  }

  /** The images to process and the matching prediction paths. */
  datatype Plan = Plan(images: seq<string>, predictions: seq<string>)

  /** The two ways the script stops before processing anything. */
  datatype Failure =
    | UnsupportedExtension(path: string)  // a file whose name has none of the supported extensions
    | MissingFile(path: string)           // a name with a supported extension that is not a file

  datatype Result<T> = Ok(value: T) | Err(failure: Failure)

  /** The folder case: one prediction path per image, in the same order. */
  function PredictionPaths(outDir: string, images: seq<string>): (r: seq<string>)
    ensures |r| == |images|
    ensures forall n :: 0 <= n < |images| ==> r[n] == OutputPath(outDir, images[n])
  {
    seq(|images|, n requires 0 <= n < |images| => OutputPath(outDir, images[n]))
  }

  /** The input/output preparation of the script. `pathImages` and
      `pathPredictions` are the absolute paths given on the command line,
      `isFile` says whether `pathImages` is an existing regular file, and
      `folderImages` is what listing the images of the folder returns. */
  function PlanInputs(pathImages: string, pathPredictions: string, isFile: bool, folderImages: seq<string>)
    : (r: Result<Plan>)
    ensures r.Ok? <==> (IsFolderInput(Basename(pathImages)) != isFile)
    ensures r.Err? ==> r.failure == (if isFile then UnsupportedExtension(pathImages) else MissingFile(pathImages))
    ensures r.Ok? ==> |r.value.images| == |r.value.predictions|
    ensures r.Ok? && isFile ==> r.value == Plan([pathImages], [pathPredictions])
    ensures r.Ok? && !isFile ==>
              r.value.images == folderImages &&
              forall n :: 0 <= n < |folderImages| ==> r.value.predictions[n] == OutputPath(pathPredictions, folderImages[n])
  {
    if IsFolderInput(Basename(pathImages)) then
      if isFile then Err(UnsupportedExtension(pathImages))
      else Ok(Plan(folderImages, PredictionPaths(pathPredictions, folderImages)))
    else
      if !isFile then Err(MissingFile(pathImages))
      else Ok(Plan([pathImages], [pathPredictions]))
  }
}
