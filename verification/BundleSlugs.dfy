/** Bundle versions and the slugs that name them. */
module BundleSlugs {
  import opened Wrappers
  import opened Decimals

  const U64_MAX: nat := 0xFFFF_FFFF_FFFF_FFFF

  datatype BundleVersion = Hash(hash: string) | Generation(generation: nat)

  predicate IsHex(c: char) {
    '0' <= c <= '9' || 'a' <= c <= 'f' || 'A' <= c <= 'F'
  }

  predicate AllDigits(s: string) {
    forall c | c in s :: IsDigit(c)
  }

  function Slug(v: BundleVersion): string {
    match v
    case Hash(h) => "sha256-" + h
    case Generation(g) => "gen-" + Decimal(g)
  }

  function StripPrefix(s: string, prefix: string): Option<string> {
    if prefix <= s then Some(s[|prefix|..]) else None
  }

  /** `str::parse::<u64>`: an optional plus sign, then digits, leading zeros allowed. */
  function ParseU64(s: string): Option<nat> {
    var digits := if s != [] && s[0] == '+' then s[1..] else s;
    if digits == [] || !AllDigits(digits) || Value(digits) > U64_MAX then None else Some(Value(digits))
  }

  function ParseSlug(slug: string): Option<BundleVersion> {
    var hash := StripPrefix(slug, "sha256-");
    if hash.Some? then
      if hash.value != [] && forall c | c in hash.value :: IsHex(c) then Some(Hash(hash.value)) else None
    else
      var generation := StripPrefix(slug, "gen-");
      if generation.None? || ParseU64(generation.value).None? then None
      else Some(Generation(ParseU64(generation.value).value))
  }

  /** The versions that exist: a non-empty hex hash, or a 64-bit generation. */
  predicate Exists(v: BundleVersion) {
    match v
    case Hash(h) => h != [] && forall c | c in h :: IsHex(c)
    case Generation(g) => g <= U64_MAX
  }

  /** Reading a slug back gives the version it was printed from, exactly for the versions that exist. */
  lemma SlugRoundTrip(v: BundleVersion)
    ensures ParseSlug(Slug(v)) == Some(v) <==> Exists(v)
  {
    match v
    case Hash(h) =>
      assert Slug(v)[7..] == h;
    case Generation(g) =>
      var digits := Decimal(g);
      assert Slug(v)[0] == 'g' && Slug(v)[4..] == digits;
      assert digits[0] in digits && digits[0] != '+';
      ValueOfDecimal(g);
  }

  /** Distinct versions have distinct slugs. */
  lemma SlugsAreInjective(v: BundleVersion, w: BundleVersion)
    ensures Slug(v) == Slug(w) <==> v == w
  {
    if Slug(v) == Slug(w) {
      assert Slug(v)[0] == if v.Hash? then 's' else 'g';
      assert Slug(w)[0] == if w.Hash? then 's' else 'g';
      if v.Hash? {
        assert Slug(v)[7..] == v.hash && Slug(w)[7..] == w.hash;
      } else {
        assert Slug(v)[4..] == Decimal(v.generation) && Slug(w)[4..] == Decimal(w.generation);
        DecimalInjective(v.generation, w.generation);
      }
    }
  }

  /** A generation slug written with neither a plus sign nor a superfluous zero. */
  predicate IsPlain(slug: string) {
    "gen-" <= slug && |slug| > 4 ==> slug[4] != '+' && (slug[4] == '0' ==> |slug| == 5)
  }

  /** Printing what was read gives the slug back exactly when it was plainly written; `gen-007` reads as `gen-7`. */
  lemma ParsedSlugsReprint(slug: string)
    requires ParseSlug(slug).Some?
    ensures Slug(ParseSlug(slug).value) == slug <==> IsPlain(slug)
  {
    var v := ParseSlug(slug).value;
    if v.Hash? {
      assert slug == "sha256-" + slug[7..] && slug[0] == 's';
    } else {
      var text := slug[4..];
      assert slug == "gen-" + text && Slug(v)[4..] == Decimal(v.generation);
      if text[0] == '+' {
        var shown := Decimal(v.generation);
        assert shown[0] in shown && shown[0] != '+';
      } else {
        DecimalOfValue(text);
      }
    }
  }

  /** Such as this one, which reads as another version's slug does. */
  lemma LeadingZerosAreRead()
    ensures ParseSlug("gen-007") == Some(Generation(7)) && Slug(Generation(7)) == "gen-7"
  {
    var slug, digits := "gen-007", "007";
    assert slug[0] != 's' && slug[4..] == digits && digits[..2] == "00" && digits[..2][..1] == "0" && "0"[..0] == "";
    assert Value("") == 0 && Value("0") == 0 && Value("00") == 0 && Value(digits) == 7;
  }

  /** And this one, with a plus sign; a hash slug is its prefix and the hash. */
  lemma PlusIsRead(hash: string)
    ensures ParseSlug("gen-+7") == Some(Generation(7))
    ensures Slug(Hash(hash)) == "sha256-" + hash
  {
    var slug := "gen-+7";
    assert slug[0] != 's' && slug[4..] == "+7" && "+7"[1..] == "7" && "7"[..0] == "";
    assert Value("") == 0 && Value("7") == 7;
  }
}
