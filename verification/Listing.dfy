/**
 The size column of LIST: a first pass over the directory finds the largest size
 (control.c:433-468), a second one prints every size right-aligned to its width
 (control.c:525-546, ftputils.c:110-122).
 */
module Listing {
  import opened Wrappers
  import opened CStrings
  import opened Decimal

  /** A directory entry, with the size that stat reports unless it fails. */
  datatype Entry = Entry(name: string, size: Option<nat>)

  /** Entries that a pass does not skip. */
  predicate Shown(e: Entry) {
    e.name != "." && e.name != ".." && e.size.Some?
  }

  /** Assigning an off_t to an int. */
  function ToInt(n: int): (r: int)
    ensures -0x8000_0000 <= r < 0x8000_0000 && (r - n) % 0x1_0000_0000 == 0
  {
    (n + 0x8000_0000) % 0x1_0000_0000 - 0x8000_0000
  }

  /** No size has more digits than the width that the first pass leaves. */
  ghost predicate Paddable(entries: seq<Entry>) {
    forall m | IsLargest(entries, m) ::
      forall i | 0 <= i < |entries| && Shown(entries[i]) :: entries[i].size.value < Pow10(|Dec(m)|)
  }

  predicate SizesFit(entries: seq<Entry>) {
    forall i | 0 <= i < |entries| && Shown(entries[i]) :: entries[i].size.value < 0x8000_0000
  }

  /** The first pass leaves the largest of 0 and the sizes as ints. */
  ghost predicate IsLargest(entries: seq<Entry>, m: int) {
    && (forall i | 0 <= i < |entries| && Shown(entries[i]) :: ToInt(entries[i].size.value) <= m)
    && (m == 0 || exists i :: 0 <= i < |entries| && Shown(entries[i]) && ToInt(entries[i].size.value) == m)
    && 0 <= m < 0x8000_0000
  }

  method FirstPass(entries: seq<Entry>) returns (m: int)
    ensures IsLargest(entries, m)
  {
    m := 0;
    for k := 0 to |entries|
      invariant IsLargest(entries[..k], m)
    {
      ghost var before, after := entries[..k], entries[..k + 1];
      assert after == before + [entries[k]];
      if Shown(entries[k]) {
        var fileSize := ToInt(entries[k].size.value);
        if fileSize > m {
          m := fileSize;
          assert after[k] == entries[k];
        }
      }
      assert m == 0 || exists i :: 0 <= i < |after| && Shown(after[i]) && ToInt(after[i].size.value) == m by {
        if i :| 0 <= i < |before| && Shown(before[i]) && ToInt(before[i].size.value) == m {
          assert after[i] == before[i];
        }
      }
    }
    assert entries[..|entries|] == entries;
  }

  function Blanks(n: nat): (s: string)
    ensures |s| == n && forall i | 0 <= i < n :: s[i] == ' '
  {
    seq(n, i => ' ')
  }

  function RightAligned(size: nat, width: nat): string
    requires |Dec(size)| <= width
  {
    Blanks(width - |Dec(size)|) + Dec(size)
  }

  /** Where the blanks of the table are cut off: negative when the size has more digits than the width. */
  function PadIndex(size: nat, width: int): int {
    width - |Dec(size)|
  }

  function StripBlanks(s: string): (r: string) {
    if s != "" && s[0] == ' ' then StripBlanks(s[1..]) else s
  }

  lemma {:induction false} StripOf(n: nat, s: string)
    requires s != "" && s[0] != ' '
    ensures StripBlanks(Blanks(n) + s) == s
  {
    if n == 0 {
      assert Blanks(0) + s == s;
    } else {
      StripOf(n - 1, s);
      assert (Blanks(n) + s)[1..] == Blanks(n - 1) + s;
    }
  }

  /**
   Over an unchanged directory with sizes below 2^31: every size fits in the width, its field
   has exactly the width, and stripping the blanks and reading the digits gives the size back.
   */
  lemma FieldsAligned(entries: seq<Entry>, m: int, i: nat)
    requires SizesFit(entries) && IsLargest(entries, m)
    requires i < |entries| && Shown(entries[i])
    ensures var size, width := entries[i].size.value, |Dec(m)|;
            && PadIndex(size, width) >= 0
            && |RightAligned(size, width)| == width
            && StripBlanks(RightAligned(size, width)) == Dec(size)
            && Value(Dec(size)) == size
  {
    var size := entries[i].size.value;
    assert ToInt(size) == size;
    DecMonotone(size, m);
    StripOf(|Dec(m)| - |Dec(size)|, Dec(size));
    ValueOfDec(size);
  }

  /**
   For any directory, also one with larger sizes: a field can be padded exactly when its size
   is below the power of ten that the largest int has reached, and then it reads back too.
   From 10^10 on no size can be padded.
   */
  lemma PadIndexIff(entries: seq<Entry>, m: int, i: nat)
    requires IsLargest(entries, m) && i < |entries| && Shown(entries[i])
    ensures var size, width := entries[i].size.value, |Dec(m)|;
            && (PadIndex(size, width) >= 0 <==> size < Pow10(width))
            && (PadIndex(size, width) >= 0 ==>
                  |RightAligned(size, width)| == width && StripBlanks(RightAligned(size, width)) == Dec(size))
            && (size >= 10_000_000_000 ==> PadIndex(size, width) < 0)
  {
    hide Dec, Pow10;
    var size, width := entries[i].size.value, |Dec(m)|;
    FitsIff(size, width);
    IntWidth(m);
    if |Dec(size)| <= width {
      StripOf(width - |Dec(size)|, Dec(size));
    }
  }

  lemma FitsIff(size: nat, width: nat)
    requires width >= 1
    ensures |Dec(size)| <= width <==> size < Pow10(width)
  {
    DecBounds(size);
    if size < Pow10(width) && |Dec(size)| > width {
      Pow10Monotone(width, |Dec(size)| - 1);
    }
    if |Dec(size)| <= width {
      Pow10Monotone(|Dec(size)|, width);
    }
  }

  lemma IntWidth(m: nat)
    requires m < 0x8000_0000
    ensures Pow10(|Dec(m)|) <= 10_000_000_000
  {
    assert Pow10(10) == 10_000_000_000;
    FitsIff(m, 10);
    Pow10Monotone(|Dec(m)|, 10);
  }

  /** The digits of a number other than 0, by powers of ten. */
  lemma {:induction false} DecBounds(n: nat)
    ensures n < Pow10(|Dec(n)|) && (n > 0 ==> Pow10(|Dec(n)| - 1) <= n)
    ensures n == 0 ==> |Dec(n)| == 1
  {
    if n < 10 {
      assert Pow10(1) == 10 * Pow10(0);
    } else {
      DecBounds(n / 10);
    }
  }

  lemma {:induction false} Pow10Monotone(j: nat, k: nat)
    requires j <= k
    ensures Pow10(j) <= Pow10(k)
    decreases k
  {
    if j < k {
      Pow10Monotone(j, k - 1);
    }
  }

  /** At 2^31 the first pass sees a negative number, and the pad index of the second pass is negative. */
  lemma SizeTooLarge(name: string)
    requires name != "." && name != ".."
    ensures var entries := [Entry(name, Some(0x8000_0000))];
            IsLargest(entries, 0) && PadIndex(0x8000_0000, |Dec(0)|) == -9
  {
    assert Pow10(9) == 1_000_000_000 && Pow10(10) == 10_000_000_000;
    DecDigits(0x8000_0000, 10);
  }

  /** The padding of format_file_info, in its 128 byte table. */
  method FormatSize(size: nat, maxSizeLen: nat) returns (field: string)
    requires 0 <= PadIndex(size, maxSizeLen) && maxSizeLen < 128
    ensures field == RightAligned(size, maxSizeLen)
  {
    var digits := Dec(size);
    var table := new char[128](_ => ' ');
    var cut := maxSizeLen - |digits|;
    table[cut] := NUL;
    assert Holds(table[..], Blanks(cut));
    StrCat(table, Blanks(cut), digits);
    ghost var s := Blanks(cut) + digits;
    var len := StrLen(table, s);
    field := table[..len];
    assert field == s;
  }

  /** How many of the first `i` entries are shown: where the field of the next one stands. */
  function Place(entries: seq<Entry>, i: nat): nat
    requires i <= |entries|
  {
    if i == 0 then 0 else Place(entries, i - 1) + if Shown(entries[i - 1]) then 1 else 0
  }

  lemma {:induction false} PlaceBefore(entries: seq<Entry>, i: nat, k: nat)
    requires i < k <= |entries| && Shown(entries[i])
    ensures Place(entries, i) < Place(entries, k)
    decreases k
  {
    if i < k - 1 {
      PlaceBefore(entries, i, k - 1);
    }
  }

  /** The directory itself, its parent, and entries that stat fails on have no field; all others have. */
  lemma ShownExactly(name: string, size: nat)
    ensures forall other: Option<nat> :: !Shown(Entry(".", other)) && !Shown(Entry("..", other))
    ensures !Shown(Entry(name, None))
    ensures name != "." && name != ".." ==> Shown(Entry(name, Some(size)))
  {
  }

  /** Sizes below 2^31 can be padded, in any directory. */
  lemma FittingIsPaddable(entries: seq<Entry>)
    requires SizesFit(entries)
    ensures Paddable(entries)
  {
    forall m, i | IsLargest(entries, m) && 0 <= i < |entries| && Shown(entries[i])
      ensures entries[i].size.value < Pow10(|Dec(m)|)
    {
      FieldsAligned(entries, m, i);
      FitsIff(entries[i].size.value, |Dec(m)|);
    }
  }

  /** `field` is the size `size`, right-aligned to `width`. */
  ghost predicate Aligned(field: string, size: nat, width: nat) {
    |field| == width && StripBlanks(field) == Dec(size)
  }

  /**
   Both passes: as many fields as shown entries, and the field of each of them, as wide as the
   largest size, behind the fields of those before it.
   */
  method SizeFields(entries: seq<Entry>) returns (fields: seq<string>, m: int)
    requires Paddable(entries)
    ensures IsLargest(entries, m)
    ensures |fields| == Place(entries, |entries|)
    ensures forall i | 0 <= i < |entries| && Shown(entries[i]) ::
              Place(entries, i) < |fields| && Aligned(fields[Place(entries, i)], entries[i].size.value, |Dec(m)|)
  {
    m := FirstPass(entries);
    var maxSizeLen := |Dec(m)|;
    WidthSmall(m);
    fields := [];
    for k := 0 to |entries|
      invariant |fields| == Place(entries, k)
      invariant forall i | 0 <= i < k && Shown(entries[i]) ::
                  Place(entries, i) < |fields| && Aligned(fields[Place(entries, i)], entries[i].size.value, maxSizeLen)
    {
      if Shown(entries[k]) {
        PadIndexIff(entries, m, k);
        var field := FormatSize(entries[k].size.value, maxSizeLen);
        fields := fields + [field];
      }
      forall i | 0 <= i <= k && Shown(entries[i])
        ensures Place(entries, i) < Place(entries, k + 1)
      {
        PlaceBefore(entries, i, k + 1);
      }
    }
  }

  lemma WidthSmall(n: nat)
    requires n < 0x8000_0000
    ensures |Dec(n)| <= 10
  {
    assert Pow10(10) == 10_000_000_000;
    FitsIff(n, 10);
  }

  /** Decimal length by powers of ten. */
  lemma {:induction false} DecDigits(n: nat, k: nat)
    requires k >= 1 && Pow10(k - 1) <= n < Pow10(k)
    ensures |Dec(n)| == k
    decreases k
  {
    if k == 1 {
      assert Pow10(1) == 10 * Pow10(0);
    } else {
      assert Pow10(k - 1) == 10 * Pow10(k - 2);
      DecDigits(n / 10, k - 1);
    }
  }

  function Pow10(k: nat): nat {
    if k == 0 then 1 else 10 * Pow10(k - 1)
  }
}
