/** Composed names: bundle references `orch:<name>@<version>` and granule ids `<batch>:<name>`. */
module Names {
  import opened Basics

  /** The last position of `c`, or -1. */
  function LastIndexOf(s: string, c: char): (i: int)
    ensures -1 <= i < |s| && (i >= 0 ==> s[i] == c) && forall j | i < j < |s| :: s[j] != c
  {
    if s == [] then -1 else if Last(s) == c then |s| - 1 else LastIndexOf(Init(s), c)
  }

  lemma LastIndexIs(s: string, c: char, i: nat)
    requires i < |s| && s[i] == c && forall j | i < j < |s| :: s[j] != c
    ensures LastIndexOf(s, c) == i
  {
  }

  // ----- bundle references ------------------------------------------------------------------

  datatype BundleKey = BundleKey(name: string, version: string)

  const PREFIX: string := "orch:"

  function FormatRef(k: BundleKey): (ref: string) { PREFIX + k.name + "@" + k.version }

  /** Strict parse; the version is what follows the last `@`. */
  function ParseRef(ref: string): (k: Option<BundleKey>) {
    if !(PREFIX <= ref) then None
    else
      var body := ref[|PREFIX|..];
      var at := LastIndexOf(body, '@');
      if at < 0 then None
      else if at == 0 || at == |body| - 1 then None
      else Some(BundleKey(body[..at], body[at + 1..]))
  }

  /** A reference that parses is the only one for its bundle. */
  lemma FormatUndoesParse(ref: string)
    requires ParseRef(ref).Some?
    ensures FormatRef(ParseRef(ref).value) == ref
    ensures ParseRef(ref).value.name != [] && ParseRef(ref).value.version != []
    ensures '@' !in ParseRef(ref).value.version
  {
  }

  /** Parsing gives back the formatted key exactly when neither part is empty and the version has no `@`. */
  lemma ParseUndoesFormat(k: BundleKey)
    ensures ParseRef(FormatRef(k)) == Some(k) <==> k.name != [] && k.version != [] && '@' !in k.version
  {
    var ref := FormatRef(k);
    assert ref == PREFIX + (k.name + "@" + k.version);
    var body := k.name + "@" + k.version;
    assert ref[|PREFIX|..] == body;
    assert body[|k.name|] == '@';
    if '@' !in k.version {
      LastIndexIs(body, '@', |k.name|);
      assert body[..|k.name|] == k.name && body[|k.name| + 1..] == k.version;
    } else if ParseRef(ref) == Some(k) {
      FormatUndoesParse(ref);
    }
  }

  /** What a reference looks like. */
  lemma RefExample()
    ensures FormatRef(BundleKey("era5", "1.2")) == "orch:era5@1.2"
  {
  }

  predicate NameChar(c: char) {
    'A' <= c <= 'Z' || 'a' <= c <= 'z' || '0' <= c <= '9' || c == '.' || c == '_' || c == '-'
  }

  /** What a manifest may call a bundle and a version. */
  predicate Registrable(k: BundleKey) {
    && k.name != [] && k.version != []
    && (forall i | 0 <= i < |k.name| :: NameChar(k.name[i]))
    && (forall i | 0 <= i < |k.version| :: NameChar(k.version[i]) || k.version[i] == '+')
  }

  /** Letters, digits, `-`, `.` and `_`, by code; a version may also have `+`. */
  predicate PlainCode(n: int) {
    65 <= n <= 90 || 97 <= n <= 122 || 48 <= n <= 57 || n in {45, 46, 95}
  }

  lemma RegistrableExactly(k: BundleKey)
    ensures Registrable(k) <==>
      && |k.name| > 0 && |k.version| > 0
      && (forall i | 0 <= i < |k.name| :: PlainCode(k.name[i] as int))
      && (forall i | 0 <= i < |k.version| :: PlainCode(k.version[i] as int) || k.version[i] as int == 43)
  {
  }

  lemma RegistrableParses(k: BundleKey)
    requires Registrable(k)
    ensures ParseRef(FormatRef(k)) == Some(k)
  {
    forall i | 0 <= i < |k.version| ensures k.version[i] != '@' {
      assert NameChar(k.version[i]) || k.version[i] == '+';
    }
    ParseUndoesFormat(k);
  }

  // ----- granule ids ------------------------------------------------------------------------

  function ComposeGid(batch: string, name: string): (gid: string) { batch + ":" + name }

  /** Two batches share an internal id when some user ids collide. */
  ghost predicate Collide(b: string, c: string) {
    exists m: string, n: string :: ComposeGid(b, m) == ComposeGid(c, n)
  }

  lemma WithinABatchDistinct(b: string, m: string, n: string)
    requires ComposeGid(b, m) == ComposeGid(b, n)
    ensures m == n
  {
    assert ComposeGid(b, m)[|b| + 1..] == m && ComposeGid(b, n)[|b| + 1..] == n;
  }

  lemma PrefixOfGid(b: string, c: string, m: string, n: string)
    requires ComposeGid(b, m) == ComposeGid(c, n) && |b| <= |c|
    ensures b + ":" <= c + ":"
  {
    var g := ComposeGid(b, m);
    assert g[..|b| + 1] == b + ":";
    assert ComposeGid(c, n)[..|c| + 1] == c + ":";
    assert (c + ":")[..|b| + 1] == g[..|b| + 1];
  }

  lemma PrefixCollides(b: string, c: string)
    requires b + ":" <= c + ":"
    ensures Collide(b, c) && Collide(c, b)
  {
    var m := (c + ":")[|b| + 1..];
    assert ComposeGid(b, m) == ComposeGid(c, "");
  }

  /**
   Ids composed for different batches can be equal, exactly when one batch id followed by a colon begins the other;
   so batch ids without a colon never collide.
   */
  lemma CollisionCondition(b: string, c: string)
    ensures Collide(b, c) <==> b + ":" <= c + ":" || c + ":" <= b + ":"
    ensures b != c && ':' !in b && ':' !in c ==> !Collide(b, c)
  {
    if Collide(b, c) {
      var m: string, n: string :| ComposeGid(b, m) == ComposeGid(c, n);
      if |b| <= |c| {
        PrefixOfGid(b, c, m, n);
      } else {
        PrefixOfGid(c, b, n, m);
      }
    }
    if b + ":" <= c + ":" {
      PrefixCollides(b, c);
      ColonInside(b, c);
    }
    if c + ":" <= b + ":" {
      PrefixCollides(c, b);
      ColonInside(c, b);
    }
  }

  lemma ColonInside(b: string, c: string)
    requires b + ":" <= c + ":"
    ensures b == c || ':' in c
  {
    assert (c + ":")[|b|] == (b + ":")[|b|] == ':';
    if |b| < |c| {
      assert c[|b|] == ':';
    } else {
      assert b == (b + ":")[..|b|] && c == (c + ":")[..|c|];
    }
  }

  /** Batch `a` with granule `b:x` and batch `a:b` with granule `x` get the same internal id. */
  lemma CollisionExample()
    ensures ComposeGid("a", "b:x") == ComposeGid("a:b", "x") && "a" != "a:b"
  {
  }
}
