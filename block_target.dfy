/** How the `/api/v1/getblockstats/<param>` route turns its path segment
    into the block argument of the stats query: by the segment's number of
    characters (Unicode scalar values, which is what `chars().count()`
    counts and what a Dafny `char` is). */
module BlockTarget {
  import opened Base
  import opened U64Parse

  /** The crate's `TargetBlockArgument`: a block named by height or by hash. */
  datatype TargetBlock = Height(height: u64) | Hash(hash: string)

  /** The character count the route takes for a block hash. */
  const HASH_CHARS_AS_WRITTEN: nat := 256

  /** The route as written: exactly 256 characters makes a hash, anything
      else must parse as a `u64` height (the parse error is where the
      route panics). */
  function Classify(s: string): (r: Result<TargetBlock, ParseIntError>)
    ensures (r.Ok? && r.value.Hash?) <==> |s| == HASH_CHARS_AS_WRITTEN
    ensures r.Ok? && r.value.Hash? ==> r.value.hash == s
    ensures r.Err? ==> r.error != Empty || s == []
  {
    if |s| == HASH_CHARS_AS_WRITTEN then Ok(Hash(s))
    else
      var height :- ParseU64(s);
      Ok(Height(height))
  }

  /** A 256-character segment is passed on unchanged as a hash; any other
      segment becomes a height exactly when it is a `u64` literal, and then
      carries that literal's value. */
  lemma ClassifyMeaning(s: string)
    ensures |s| == 256 ==> Classify(s) == Ok(Hash(s))
    ensures |s| != 256 ==> (Classify(s).Ok? <==> IsU64Literal(s))
    ensures |s| != 256 && IsU64Literal(s) ==> Classify(s) == Ok(Height(DecimalValue(Magnitude(s))))
    ensures |s| != 256 && !IsU64Literal(s) ==> Classify(s) == Err(ParseU64(s).error)
  {
    ParseU64Meaning(s);
  }

  /** A height written in decimal is sent as that height. */
  lemma ClassifyDecimalHeight(n: u64)
    ensures Classify(Decimal(n)) == Ok(Height(n))
  {
    DecimalOfU64IsShort(n);
    ParseDecimalRoundTrip(n);
  }

  predicate IsHexDigit(c: char) {
    IsDigit(c) || 'a' <= c <= 'f' || 'A' <= c <= 'F'
  }

  /** A block hash as the node prints it: 64 hexadecimal characters. */
  predicate IsHexHash(s: string) {
    |s| == 64 && forall i :: 0 <= i < |s| ==> IsHexDigit(s[i])
  }

  /** As written, a real block hash is never classified as a hash: it is
      read as a height, and one that holds a letter fails to parse. */
  lemma HexHashNotClassifiedAsHash(s: string, i: nat)
    requires IsHexHash(s) && i < |s| && !IsDigit(s[i])
    ensures Classify(s).Err?
  {
    ParseU64RejectsNonDigit(s, i);
  }

  /** The genesis block's hash (written in eight-character pieces), a
      concrete input that the route rejects. */
  const GENESIS_HASH: string :=
    "00000000" + "0019d668" + "9c085ae1" + "65831e93" + "4ff763ae" + "46a2a6c1" + "72b3f1b6" + "0a8ce26f"

  lemma GenesisHashRejected()
    ensures IsHexHash(GENESIS_HASH)
    ensures Classify(GENESIS_HASH).Err?
  {
    assert GENESIS_HASH[12] == 'd';
    HexHashNotClassifiedAsHash(GENESIS_HASH, 12);
  }

  /** The character count of a block hash in hexadecimal, which the route
      evidently meant (256 is the hash's width in bits). */
  const HASH_CHARS: nat := 64

  /** The classification with the hash length corrected to 64 characters. */
  function ClassifyIntended(s: string): (r: Result<TargetBlock, ParseIntError>)
    ensures (r.Ok? && r.value.Hash?) <==> |s| == HASH_CHARS
    ensures r.Ok? && r.value.Hash? ==> r.value.hash == s
  {
    if |s| == HASH_CHARS then Ok(Hash(s))
    else
      var height :- ParseU64(s);
      Ok(Height(height))
  }

  /** With the corrected length, every block hash is sent as that hash and
      every decimal height as that height, so both ways of naming a block
      reach the node intact. */
  lemma ClassifyIntendedSeparates(h: string, n: u64)
    requires IsHexHash(h)
    ensures ClassifyIntended(h) == Ok(Hash(h))
    ensures ClassifyIntended(Decimal(n)) == Ok(Height(n))
  {
    DecimalOfU64IsShort(n);
    ParseDecimalRoundTrip(n);
  }
}
