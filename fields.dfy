/** What fields_from_dir produces from one directory listing, as functions of
    the listing and the path-to-URL cache: which entries become fields, what
    the fields hold, and which paths have to be uploaded. Every function here
    recurses on the last entry, the way the loop over the listing grows. */
module FieldSpec {
  import opened FileSystems
  import opened Naming

  /** One `{field_name, url}` record of a document. */
  datatype Field = Field(fieldName: string, url: string)

  /** `m1` keeps every entry of `m0`, key and value. */
  predicate Extends(m0: map<string, string>, m1: map<string, string>) {
    forall k :: k in m0 ==> k in m1 && m1[k] == m0[k]
  }

  /** The entries whose names end in `.jpg`, in listing order. */
  function Jpgs(es: seq<Entry>): (r: seq<Entry>)
    ensures |r| <= |es|
  {
    if es == [] then []
    else Jpgs(es[..|es| - 1]) + (if IsJpg(es[|es| - 1].name) then [es[|es| - 1]] else [])
  }

  /** The paths of those entries: the cache keys a run over `es` needs. */
  function JpgPaths(es: seq<Entry>): (r: set<string>) {
    if es == [] then {}
    else JpgPaths(es[..|es| - 1]) + (if IsJpg(es[|es| - 1].name) then {es[|es| - 1].path} else {})
  }

  /** The fields of a listing once every image path has its URL in `m`. */
  function Fields(es: seq<Entry>, m: map<string, string>): (r: seq<Field>)
    requires JpgPaths(es) <= m.Keys
    ensures |r| == |Jpgs(es)|
  {
    if es == [] then []
    else
      var e := es[|es| - 1];
      Fields(es[..|es| - 1], m) + (if IsJpg(e.name) then [Field(FieldName(e.name), m[e.path])] else [])
  }

  /** The paths a run over `es` uploads, in order, when the cache starts with
      the keys `known`: each image path that is not yet known, the first time
      it is met (a later repeat finds the URL the first one cached). */
  function ToUpload(es: seq<Entry>, known: set<string>): (r: seq<string>)
    ensures |r| <= |Jpgs(es)|
    ensures forall k :: 0 <= k < |r| ==> r[k] !in known
  {
    if es == [] then []
    else
      var init, e := es[..|es| - 1], es[|es| - 1];
      ToUpload(init, known) + (if IsJpg(e.name) && e.path !in known + JpgPaths(init) then [e.path] else [])
  }

  /** An entry is kept if and only if its name ends with `.jpg`. */
  lemma {:induction false} JpgsMembers(es: seq<Entry>)
    ensures forall e :: e in Jpgs(es) <==> e in es && IsJpg(e.name)
  {
    if es != [] {
      var init := es[..|es| - 1];
      JpgsMembers(init);
      assert es == init + [es[|es| - 1]];
    }
  }

  /** Filtering keeps listing order, one entry per matching entry: the kept
      entries of a concatenation are the kept entries of each part. */
  lemma {:induction false} JpgsAppend(a: seq<Entry>, b: seq<Entry>)
    ensures Jpgs(a + b) == Jpgs(a) + Jpgs(b)
  {
    if b == [] {
      assert a + b == a;
    } else {
      var init := b[..|b| - 1];
      assert (a + b)[..|a + b| - 1] == a + init;
      JpgsAppend(a, init);
    }
  }

  /** The image paths of a listing are the paths of its `.jpg` entries. */
  lemma {:induction false} JpgPathsMembers(es: seq<Entry>)
    ensures forall p :: p in JpgPaths(es) <==> exists e :: e in es && IsJpg(e.name) && e.path == p
  {
    if es != [] {
      var init := es[..|es| - 1];
      JpgPathsMembers(init);
      assert es == init + [es[|es| - 1]];
    }
  }

  lemma {:induction false} JpgPathsAppend(a: seq<Entry>, b: seq<Entry>)
    ensures JpgPaths(a + b) == JpgPaths(a) + JpgPaths(b)
  {
    if b == [] {
      assert a + b == a;
    } else {
      var init := b[..|b| - 1];
      assert (a + b)[..|a + b| - 1] == a + init;
      JpgPathsAppend(a, init);
    }
  }

  /** JpgPaths is the same filter as Jpgs: the paths of the kept entries. */
  lemma JpgPathsArePathsOfJpgs(es: seq<Entry>)
    ensures JpgPaths(es) == set e | e in Jpgs(es) :: e.path
  {
    JpgsMembers(es);
    JpgPathsMembers(es);
  }

  /** One field per `.jpg` entry, in listing order: the k-th field is named
      after the k-th image and carries the URL cached for its path. */
  lemma {:induction false} FieldsMatchJpgs(es: seq<Entry>, m: map<string, string>)
    requires JpgPaths(es) <= m.Keys
    ensures |Fields(es, m)| == |Jpgs(es)|
    ensures forall k :: 0 <= k < |Jpgs(es)| ==>
      Jpgs(es)[k].path in m &&
      Fields(es, m)[k] == Field(FieldName(Jpgs(es)[k].name), m[Jpgs(es)[k].path])
  {
    if es != [] {
      FieldsMatchJpgs(es[..|es| - 1], m);
      JpgsMembers(es);
      JpgPathsMembers(es);
      forall k | 0 <= k < |Jpgs(es)| ensures Jpgs(es)[k].path in m {
        assert Jpgs(es)[k] in Jpgs(es);
      }
    }
  }

  /** Growing the cache without overwriting leaves the fields unchanged. */
  lemma {:induction false} FieldsStable(es: seq<Entry>, m0: map<string, string>, m1: map<string, string>)
    requires JpgPaths(es) <= m0.Keys
    requires Extends(m0, m1)
    ensures JpgPaths(es) <= m1.Keys
    ensures Fields(es, m1) == Fields(es, m0)
  {
    if es != [] {
      FieldsStable(es[..|es| - 1], m0, m1);
    }
  }

  /** A path is uploaded if and only if it is an image path the cache did not
      know: no upload for a cached path, and one for every uncached one. */
  lemma {:induction false} ToUploadMembers(es: seq<Entry>, known: set<string>)
    ensures forall p :: p in ToUpload(es, known) <==> p in JpgPaths(es) && p !in known
  {
    if es != [] {
      ToUploadMembers(es[..|es| - 1], known);
    }
  }

  /** No path is uploaded twice in one run. */
  lemma {:induction false} ToUploadDistinct(es: seq<Entry>, known: set<string>)
    ensures forall i, j :: 0 <= i < j < |ToUpload(es, known)| ==> ToUpload(es, known)[i] != ToUpload(es, known)[j]
  {
    if es != [] {
      var init := es[..|es| - 1];
      ToUploadDistinct(init, known);
      ToUploadMembers(init, known);
    }
  }

  /** A run over `a + b` uploads what a run over `a` uploads, then what a run
      over `b` uploads once `a`'s images are cached. */
  lemma {:induction false} ToUploadAppend(a: seq<Entry>, b: seq<Entry>, known: set<string>)
    ensures ToUpload(a + b, known) == ToUpload(a, known) + ToUpload(b, known + JpgPaths(a))
  {
    if b == [] {
      assert a + b == a;
    } else {
      var init := b[..|b| - 1];
      assert (a + b)[..|a + b| - 1] == a + init;
      ToUploadAppend(a, init, known);
      JpgPathsAppend(a, init);
    }
  }

  /** An image whose path is neither known nor met before is uploaded next. */
  lemma ToUploadSnoc(es: seq<Entry>, e: Entry, known: set<string>)
    requires IsJpg(e.name) && e.path !in known + JpgPaths(es)
    ensures ToUpload(es + [e], known) == ToUpload(es, known) + [e.path]
  {
    assert (es + [e])[..|es|] == es;
  }

  /** Once every image path is cached, a run uploads nothing. */
  lemma ToUploadNoneWhenCached(es: seq<Entry>, known: set<string>)
    requires JpgPaths(es) <= known
    ensures ToUpload(es, known) == []
  {
    ToUploadMembers(es, known);
  }
}
