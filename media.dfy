/** `_make_absolute_media` of `backend/main.py`: relative media paths stored with a product are
  * turned into absolute URLs under the backend's public address before products are served. */
module Media {
  import opened Wrappers
  import opened Text

  /** A Python value read from a product dict: a string, or anything else (None, a number...). */
  datatype PyValue = PyStr(s: string) | PyOther

  /** The `images` entry of a product dict: a list, or anything else. */
  datatype PyImages = PyList(items: seq<PyValue>) | NotAList

  const DefaultPublicUrl := "http://localhost:8000"

  /** `str.rstrip('/')`. */
  function RStripSlash(s: string): (r: string)
    ensures |r| <= |s| && r == s[..|r|]
    ensures |r| == 0 || r[|r| - 1] != '/'
    ensures forall i :: |r| <= i < |s| ==> s[i] == '/'
    decreases |s|
  {
    if |s| > 0 && s[|s| - 1] == '/' then RStripSlash(s[..|s| - 1]) else s
  }

  /** `BACKEND_PUBLIC_URL`: the configured address, or the default, without trailing slashes. */
  function PublicUrl(configured: Option<string>): string {
    RStripSlash(if configured.Some? then configured.value else DefaultPublicUrl)
  }

  /** Without configuration the address is the local default, which starts with "http". */
  lemma DefaultPublicUrlIsHttp()
    ensures PublicUrl(None) == DefaultPublicUrl
    ensures StartsWith(PublicUrl(None), "http")
  {
  }

  /** One media value: a non-empty string not starting with "http" is rebased under
    * `base`; a path already under `/uploads/` keeps it, any other loses its leading slashes and
    * is put under `/uploads/`. */
  function NormalizeUrl(base: string, s: string): string {
    if s != "" && !StartsWith(s, "http") then
      if StartsWith(s, "/uploads/") then base + s else base + "/uploads/" + LStripSlash(s)
    else s
  }

  function NormalizeValue(base: string, v: PyValue): PyValue {
    match v
    case PyStr(s) => PyStr(NormalizeUrl(base, s))
    case PyOther => PyOther
  }

  /** The rewrite leaves absolute and empty values alone, and puts every other value under
    * `base + "/uploads/"`: a path under `/uploads/` is kept whole, any other loses all of its
    * leading slashes and keeps the rest. */
  lemma NormalizeUrlCases(base: string, s: string)
    ensures s == "" || StartsWith(s, "http") ==> NormalizeUrl(base, s) == s
    ensures s != "" && !StartsWith(s, "http") ==> StartsWith(NormalizeUrl(base, s), base + "/uploads/")
    ensures s != "" && !StartsWith(s, "http") && StartsWith(s, "/uploads/") ==>
              NormalizeUrl(base, s) == base + s
    ensures s != "" && !StartsWith(s, "http") && !StartsWith(s, "/uploads/") ==>
              exists k :: 0 <= k <= |s| && (forall i :: 0 <= i < k ==> s[i] == '/')
                          && (k < |s| ==> s[k] != '/')
                          && NormalizeUrl(base, s) == base + "/uploads/" + s[k..]
  {
    if s != "" && !StartsWith(s, "http") {
      if StartsWith(s, "/uploads/") {
        assert s == "/uploads/" + s[9..];
        assert (base + s)[..|base + "/uploads/"|] == base + "/uploads/";
      } else {
        var k := LStripSlashSpec(s);
        if k < |s| {
          assert s[k..][0] == s[k];
        }
        var r := base + "/uploads/" + s[k..];
        assert r[..|base + "/uploads/"|] == base + "/uploads/";
      }
    }
  }

  lemma StartsWithTrans(s: string, p: string, q: string)
    requires StartsWith(s, p) && StartsWith(p, q)
    ensures StartsWith(s, q)
  {
    assert s[..|q|] == s[..|p|][..|q|];
  }

  /** With a base that starts with "http" the rewrite is idempotent: a rebased value starts with
    * the base, hence with "http", and is left alone the second time. */
  lemma NormalizeUrlIdempotent(base: string, s: string)
    requires StartsWith(base, "http")
    ensures NormalizeUrl(base, NormalizeUrl(base, s)) == NormalizeUrl(base, s)
  {
    var r := NormalizeUrl(base, s);
    if r != s {
      NormalizeUrlCases(base, s);
      assert StartsWith(base + "/uploads/", base);
      StartsWithTrans(r, base + "/uploads/", base);
      StartsWithTrans(r, base, "http");
    }
  }

  /** The `images` list as `_make_absolute_media` leaves it: element by element. */
  function NormalizeImages(base: string, images: PyImages): (r: PyImages)
    ensures images.NotAList? ==> r == NotAList
    ensures images.PyList? ==> r.PyList? && |r.items| == |images.items|
  {
    match images
    case NotAList => NotAList
    case PyList(items) => PyList(seq(|items|, k requires 0 <= k < |items| => NormalizeValue(base, items[k])))
  }

  /** The loop that builds `normalized`: same length, same order, each entry rewritten on its own. */
  method NormalizeList(base: string, items: seq<PyValue>) returns (normalized: seq<PyValue>)
    ensures |normalized| == |items|
    ensures forall k :: 0 <= k < |items| ==> normalized[k] == NormalizeValue(base, items[k])
  {
    normalized := [];
    for i := 0 to |items|
      invariant |normalized| == i
      invariant forall k :: 0 <= k < i ==> normalized[k] == NormalizeValue(base, items[k])
    {
      var it := items[i];
      if it.PyStr? && it.s != "" && !StartsWith(it.s, "http") {
        if StartsWith(it.s, "/uploads/") {
          normalized := normalized + [PyStr(base + it.s)];
        } else {
          normalized := normalized + [PyStr(base + "/uploads/" + LStripSlash(it.s))];
        }
      } else {
        normalized := normalized + [it];
      }
    }
  }

  /** Normalising a whole product twice gives what normalising once gives. */
  lemma NormalizeImagesIdempotent(base: string, images: PyImages)
    requires StartsWith(base, "http")
    ensures NormalizeImages(base, NormalizeImages(base, images)) == NormalizeImages(base, images)
  {
    if images.PyList? {
      var once := NormalizeImages(base, images).items;
      forall k | 0 <= k < |once| ensures NormalizeValue(base, once[k]) == once[k] {
        if images.items[k].PyStr? {
          NormalizeUrlIdempotent(base, images.items[k].s);
        }
      }
    }
  }

  /** The media fields of a product dict, which `_make_absolute_media` updates in place. */
  class ProductMedia {
    var imageUrl: PyValue
    var images: PyImages

    constructor (imageUrl: PyValue, images: PyImages)
      ensures this.imageUrl == imageUrl && this.images == images
    {
      this.imageUrl := imageUrl;
      this.images := images;
    }

    /** `_make_absolute_media(product)`. */
    method MakeAbsoluteMedia(base: string)
      modifies this
      ensures imageUrl == NormalizeValue(base, old(imageUrl))
      ensures images == NormalizeImages(base, old(images))
    {
      if imageUrl.PyStr? {
        imageUrl := PyStr(NormalizeUrl(base, imageUrl.s));
      }
      if images.PyList? {
        var normalized := NormalizeList(base, images.items);
        images := PyList(normalized);
      }
    }
  }
}
