/** File-name handling of the request builder: which directory entries are
    images, how a field is named after its file, and the name of a folder. */
module Naming {

  /** The only file names fields_from_dir accepts end in this suffix. */
  const JpgSuffix: string := ".jpg"

  /** `s` ends with `suffix`, compared character by character (so case matters). */
  predicate EndsWith(s: string, suffix: string) {
    |suffix| <= |s| && s[|s| - |suffix|..] == suffix
  }

  /** The entry filter of fields_from_dir: `name.endswith('.jpg')`. */
  predicate IsJpg(name: string) {
    EndsWith(name, JpgSuffix)
  }

  /** A name passes the filter if and only if it is some stem followed by
      `.jpg`. */
  lemma IsJpgMeansSuffix(name: string)
    ensures IsJpg(name) <==> exists stem :: name == stem + ".jpg"
  {
    if IsJpg(name) {
      assert name == name[..|name| - 4] + ".jpg";
    }
  }

  /** `name.split('.')[0]`: the longest dot-free prefix of the name, that is
      everything before its first dot, or the whole name when it has none. */
  function FieldName(name: string): (r: string)
    ensures r <= name
    ensures '.' !in r
    ensures |r| < |name| ==> name[|r|] == '.'
  {
    if name == [] || name[0] == '.' then [] else [name[0]] + FieldName(name[1..])
  }

  /** The three facts FieldName promises single out its result: any prefix
      with no dot that stops at a dot (or at the end) is the field name. */
  lemma FieldNameIsUnique(name: string, stem: string)
    requires stem <= name
    requires '.' !in stem
    requires |stem| < |name| ==> name[|stem|] == '.'
    ensures stem == FieldName(name)
  {
  }

  /** Only the first dot counts: `a.b.jpg` is named `a`, not `a.b`. */
  lemma {:induction false} FieldNameStopsAtFirstDot(stem: string, rest: string)
    requires '.' !in stem
    ensures FieldName(stem + "." + rest) == stem
  {
    if stem != [] {
      assert (stem + "." + rest)[1..] == stem[1..] + "." + rest;
      FieldNameStopsAtFirstDot(stem[1..], rest);
    }
  }

  /** The suffix test is case-sensitive and looks at the end of the name only. */
  lemma JpgFilterExamples()
    ensures IsJpg("x.jpg") && IsJpg("a.b.jpg")
    ensures !IsJpg("x.JPG") && !IsJpg("x.jpeg") && !IsJpg("x.jpg.txt")
  {
    assert "x.JPG"[1..] != JpgSuffix by { assert "x.JPG"[1..][1] == 'J'; }
    assert "x.jpeg"[2..] != JpgSuffix by { assert "x.jpeg"[2..][0] == 'j'; }
    assert "x.jpg.txt"[5..] != JpgSuffix by { assert "x.jpg.txt"[5..][1] == 't'; }
  }

  /** `Path.name`: the last component of a path, the text after its last `/`. */
  function BaseName(path: string): (r: string)
    ensures '/' !in r
    ensures |r| <= |path| && path[|path| - |r|..] == r
    ensures |r| < |path| ==> path[|path| - |r| - 1] == '/'
  {
    if path == [] || path[|path| - 1] == '/' then []
    else
      var init := path[..|path| - 1];
      var r := BaseName(init) + [path[|path| - 1]];
      assert path[|path| - |r|..] == init[|init| - |r| + 1..] + [path[|path| - 1]];
      r
  }
}
