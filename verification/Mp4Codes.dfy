/** The four-character codes and brands of the MP4 scan, as they are spelled in ASCII. */
module Mp4Codes {
  import opened Mp4Tracks

  /** The bytes are the characters of the text. */
  predicate Spells(b: Bytes, text: string) {
    |b| == |text| && forall i | 0 <= i < |text| :: b[i] == text[i] as int
  }

  const BRANDS: seq<string> := [
    "isom", "iso2", "iso3", "iso4", "iso5", "iso6", "iso7", "iso8", "iso9", "mp41", "mp42", "M4A", "M4V",
    "3gp4", "3gp5", "3gp6", "3gp7", "3gp8", "3gp9", "qt  "]

  lemma FourSpell(b: Bytes, text: string)
    requires |text| == 4
    ensures Spells(b, text) <==>
      |b| == 4 && b[0] == text[0] as int && b[1] == text[1] as int && b[2] == text[2] as int && b[3] == text[3] as int
  {
  }

  /** The boxes that the scan knows, and the two handlers, by name. */
  lemma CodesAreSpelled(code: Bytes)
    ensures code == FTYP <==> Spells(code, "ftyp")
    ensures code == HDLR <==> Spells(code, "hdlr")
    ensures code in CONTAINERS <==> Spells(code, "moov") || Spells(code, "trak") || Spells(code, "mdia")
    ensures HandlerOf(code) ==
      if Spells(code, "soun") then {Soun} else if Spells(code, "vide") then {Vide} else {}
  {
    FourSpell(code, "ftyp");
    FourSpell(code, "hdlr");
    FourSpell(code, "moov");
    FourSpell(code, "trak");
    FourSpell(code, "mdia");
    FourSpell(code, "soun");
    FourSpell(code, "vide");
    hide Spells;
    assert |code| == 4 ==> code == [code[0], code[1], code[2], code[3]];
    assert code in CONTAINERS <==>
      code == [0x6D, 0x6F, 0x6F, 0x76] || code == [0x74, 0x72, 0x61, 0x6B] || code == [0x6D, 0x64, 0x69, 0x61];
  }

  predicate StartsWith(b: Bytes, text: string) {
    |text| <= |b| && forall i | 0 <= i < |text| :: b[i] == text[i] as int
  }

  ghost predicate StartsWithBrand(b: Bytes) {
    exists k | 0 <= k < |BRANDS| :: StartsWith(b, BRANDS[k])
  }

  lemma BrandIff(b: Bytes)
    requires |b| >= 3
    ensures Brand(b) <==> StartsWithBrand(b)
  {
    if Brand(b) { BrandIsListed(b); }
    if k :| 0 <= k < |BRANDS| && StartsWith(b, BRANDS[k]) { ListedIsBrand(b, k); }
  }

  lemma ListedIsBrand(b: Bytes, k: nat)
    requires |b| >= 3 && k < |BRANDS| && StartsWith(b, BRANDS[k])
    ensures Brand(b)
  {
    assert b[..3] == [b[0], b[1], b[2]];
  }

  lemma BrandIsListed(b: Bytes)
    requires |b| >= 3 && Brand(b)
    ensures StartsWithBrand(b)
  {
    assert b[..3] == [b[0], b[1], b[2]];
    if b[..3] == [0x69, 0x73, 0x6F] {
      var k := if b[3] == 0x6D then 0 else b[3] - 0x31;
      assert StartsWith(b, BRANDS[k]);
    } else if b[..3] == [0x6D, 0x70, 0x34] {
      assert StartsWith(b, BRANDS[b[3] - 0x31 + 9]);
    } else if b[..3] == [0x4D, 0x34, 0x41] {
      assert StartsWith(b, BRANDS[11]);
    } else if b[..3] == [0x4D, 0x34, 0x56] {
      assert StartsWith(b, BRANDS[12]);
    } else if b[..3] == [0x33, 0x67, 0x70] {
      assert StartsWith(b, BRANDS[b[3] - 0x34 + 13]);
    } else {
      assert StartsWith(b, BRANDS[19]);
    }
  }

  /** A payload has a brand if one of the listed ones stands anywhere in it. */
  lemma HasBrandIff(b: Bytes)
    ensures HasBrand(b) <==> exists i | 0 <= i <= |b| :: StartsWithBrand(b[i..])
  {
    hide Brand, StartsWith;
    if HasBrand(b) {
      var i :| 0 <= i < |b| - 2 && Brand(b[i..]);
      BrandIff(b[i..]);
      assert StartsWithBrand(b[i..]);
    }
    if i :| 0 <= i <= |b| && StartsWithBrand(b[i..]) {
      BrandsAreLong(b[i..]);
      BrandIff(b[i..]);
      assert Brand(b[i..]);
    }
  }

  lemma BrandsAreLong(b: Bytes)
    requires StartsWithBrand(b)
    ensures |b| >= 3
  {
    var k :| 0 <= k < |BRANDS| && StartsWith(b, BRANDS[k]);
    assert |BRANDS[k]| >= 3;
  }
}
