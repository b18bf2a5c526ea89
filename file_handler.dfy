/**
 * File-name sanitising and the unit choice of the size display
 * (utils/file_handler.py).
 */
module FileHandler {

  /** The characters `get_safe_filename` replaces, in the order it replaces them. */
  const InvalidChars: string := "<>:\"/\\|?*"

  /** A character not allowed in a file name on common file systems. */
  predicate IsInvalid(c: char) {
    c in InvalidChars
  }

  /** What `get_safe_filename` leaves at one position. */
  function SafeChar(c: char): (d: char)
    ensures !IsInvalid(d)
    ensures IsInvalid(c) ==> d == '_'
    ensures !IsInvalid(c) ==> d == c
  {
    if IsInvalid(c) then '_' else c
  }

  /** The sanitised name, position by position. */
  function SafeFilename(name: string): (r: string)
    ensures |r| == |name|
    ensures forall i :: 0 <= i < |name| ==> r[i] == SafeChar(name[i])
  {
    seq(|name|, i requires 0 <= i < |name| => SafeChar(name[i]))
  }

  /** `s.replace(c, by)` for a single character `c`. */
  function ReplaceChar(s: string, c: char, sub: char): (r: string)
    ensures |r| == |s|
    ensures forall i :: 0 <= i < |s| ==> r[i] == if s[i] == c then sub else s[i]
  {
    seq(|s|, i requires 0 <= i < |s| => if s[i] == c then sub else s[i])
  }

  /**
   * `get_safe_filename`: one `replace(char, '_')` per invalid character, in
   * turn. The name keeps its length; every invalid character becomes `_`
   * and every other character stays.
   */
  method GetSafeFilename(filename: string) returns (r: string)
    ensures r == SafeFilename(filename)
  {
    r := filename;
    var j := 0;
    while j < |InvalidChars|
      invariant 0 <= j <= |InvalidChars| && |r| == |filename|
      invariant forall i :: 0 <= i < |r| ==>
        r[i] == if filename[i] in InvalidChars[..j] then '_' else filename[i]
    {
      assert InvalidChars[..j + 1] == InvalidChars[..j] + [InvalidChars[j]];
      r := ReplaceChar(r, InvalidChars[j], '_');
      j := j + 1;
    }
    assert InvalidChars[..j] == InvalidChars;
  }

  /** A sanitised name holds none of `< > : " / \ | ? *`. */
  lemma SafeHasNoInvalid(name: string)
    ensures forall i :: 0 <= i < |SafeFilename(name)| ==> SafeFilename(name)[i] !in InvalidChars
  {
  }

  /** Sanitising twice is sanitising once. */
  lemma SafeIdempotent(name: string)
    ensures SafeFilename(SafeFilename(name)) == SafeFilename(name)
  {
  }

  /** A name that holds no invalid character is returned unchanged. */
  lemma SafeKeepsCleanName(name: string)
    requires forall i :: 0 <= i < |name| ==> !IsInvalid(name[i])
    ensures SafeFilename(name) == name
  {
  }

  /** Example: a title with a colon and a question mark. */
  lemma SafeExample()
    ensures SafeFilename("Q&A: why?") == "Q&A_ why_"
  {
    var s := "Q&A: why?";
    assert IsInvalid(s[3]) && IsInvalid(s[8]);
    assert forall i :: 0 <= i < |s| && i != 3 && i != 8 ==> !IsInvalid(s[i]);
  }

  // ---------------------------------------------------------------------------
  // format_size
  // ---------------------------------------------------------------------------

  /** The unit names `format_size` walks through, then the fallback. */
  const Units: seq<string> := ["B", "KB", "MB", "GB", "TB"]

  /** `1024^k` as an exact real. */
  function Pow1024(k: nat): (p: real)
    ensures p >= 1.0
  {
    if k == 0 then 1.0 else 1024.0 * Pow1024(k - 1)
  }

  /** The size after `k` divisions by 1024. */
  function Scaled(size: real, k: nat): real {
    size / Pow1024(k)
  }

  /**
   * The unit index `format_size` settles on: the first of B, KB, MB and GB
   * at which the scaled value is below 1024, otherwise TB.
   */
  function UnitIndex(size: real): (k: nat)
    ensures k <= 4
    ensures k < 4 ==> Scaled(size, k) < 1024.0
    ensures forall j :: 0 <= j < k ==> Scaled(size, j) >= 1024.0
  {
    if size < 1024.0 then 0
    else if Scaled(size, 1) < 1024.0 then 1
    else if Scaled(size, 2) < 1024.0 then 2
    else if Scaled(size, 3) < 1024.0 then 3
    else 4
  }

  /**
   * `format_size` without the `.2f` rendering: the loop divides the size
   * in place until it drops below 1024 or the units run out, and returns
   * the value it reached with the unit's name.
   */
  method FormatSize(sizeBytes: int) returns (value: real, unit: string)
    ensures value == Scaled(sizeBytes as real, UnitIndex(sizeBytes as real))
    ensures unit == Units[UnitIndex(sizeBytes as real)]
  {
    var total := sizeBytes as real;
    var size := total;
    var k := 0;
    while k < 4
      invariant 0 <= k <= 4
      invariant size == Scaled(total, k)
      invariant forall j :: 0 <= j < k ==> Scaled(total, j) >= 1024.0
    {
      if size < 1024.0 {
        UnitIndexIsFirst(total, k);
        return size, Units[k];
      }
      ScaledStep(total, k);
      size := size / 1024.0;
      k := k + 1;
    }
    UnitIndexIsFirst(total, 4);
    return size, Units[4];
  }

  lemma ScaledStep(size: real, k: nat)
    ensures Scaled(size, k + 1) == Scaled(size, k) / 1024.0
  {
    var p := Pow1024(k);
    assert Pow1024(k + 1) == 1024.0 * p;
    assert size / (1024.0 * p) == (size / p) / 1024.0;
  }

  /**
   * The unit index is characterised by the walk: the first index below four
   * with a scaled value under 1024, or four when there is none.
   */
  lemma UnitIndexIsFirst(size: real, k: nat)
    requires k <= 4
    requires forall j :: 0 <= j < k ==> Scaled(size, j) >= 1024.0
    requires k < 4 ==> Scaled(size, k) < 1024.0
    ensures UnitIndex(size) == k
  {
    assert Pow1024(0) == 1.0;
  }

  /** 1536 bytes show as 1.5 KB. */
  lemma FormatSizeExample()
    ensures UnitIndex(1536.0) == 1 && Scaled(1536.0, 1) == 1.5
  {
    assert Pow1024(1) == 1024.0;
  }
}
