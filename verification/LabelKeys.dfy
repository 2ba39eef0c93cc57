/** The strings behind label keys and lease ids, and why different keys never collide. */
module LabelKeys {
  import opened Content
  import opened Strings

  const PRECOMPILE_PREFIX := "runwasi.io/precompiled/"
  const GC_PREFIX := "containerd.io/gc.ref.content."

  function Digit(n: nat): char
    requires n < 10
  {
    '0' + n as char
  }

  /** `u64::to_string` and `usize` formatting. */
  function Decimal(n: nat): string {
    if n < 10 then [Digit(n)] else Decimal(n / 10) + [Digit(n % 10)]
  }

  /** `precompile_label`: the engine name may contain slashes, the version is a decimal number. */
  function PrecompileLabel(e: Engine): string {
    PRECOMPILE_PREFIX + e.name + "/" + Decimal(e.version)
  }

  function GcName(k: Key): string
    requires IsGcRef(k)
  {
    match k
    case Slot(i) => "precompile." + Decimal(i)
    case Child(i) => "l." + Decimal(i)
    case ConfigChild => "config"
  }

  function Text(k: Key): string {
    match k
    case Precompile(e) => PrecompileLabel(e)
    case Original(e) => PrecompileLabel(e) + "/original"
    case _ => GC_PREFIX + GcName(k)
  }

  /** The lease and ingest reference of `save_content`. */
  function LeaseId(e: Engine): string {
    "precompile-" + PrecompileLabel(e)
  }

  lemma {:induction false} DecimalDigits(n: nat)
    ensures Decimal(n) != []
    ensures forall i :: 0 <= i < |Decimal(n)| ==> '0' <= Decimal(n)[i] <= '9'
  {
    if n >= 10 { DecimalDigits(n / 10); }
  }

  lemma {:induction false} DecimalInjective(m: nat, n: nat)
    requires Decimal(m) == Decimal(n)
    ensures m == n
  {
    DecimalDigits(m / 10);
    DecimalDigits(n / 10);
    var s, t := Decimal(m), Decimal(n);
    assert s[|s| - 1] == Digit(m % 10) && t[|t| - 1] == Digit(n % 10);
    if m >= 10 && n >= 10 {
      assert s[..|s| - 1] == Decimal(m / 10) && t[..|t| - 1] == Decimal(n / 10);
      DecimalInjective(m / 10, n / 10);
    }
  }

  lemma LabelParts(e: Engine)
    ensures '/' !in Decimal(e.version) && Decimal(e.version) != "original"
  {
    DecimalDigits(e.version);
    assert "original"[0] == 'o';
  }

  /** The number a string of digits stands for. */
  function Value(s: string): int {
    if s == "" then 0 else 10 * Value(s[..|s| - 1]) + (s[|s| - 1] as int - '0' as int)
  }

  /** Numbers are written in decimal: digits only, no leading zero, and they read back. */
  lemma {:induction false} DecimalReadsBack(n: nat)
    ensures Value(Decimal(n)) == n
    ensures |Decimal(n)| > 1 ==> Decimal(n)[0] != '0'
  {
    if n < 10 {
      assert [Digit(n)][..0] == "";
    } else {
      DecimalReadsBack(n / 10);
      DecimalDigits(n / 10);
      var s := Decimal(n);
      assert s[..|s| - 1] == Decimal(n / 10) && s[|s| - 1] == Digit(n % 10);
      if n / 10 < 10 { assert s[0] == Digit(n / 10); }
    }
  }

  /** The strings as they appear in containerd. */
  lemma Spelled(e: Engine, i: nat)
    ensures Text(Precompile(e)) == "runwasi.io/precompiled/" + e.name + "/" + Decimal(e.version)
    ensures Text(Original(e)) == Text(Precompile(e)) + "/original"
    ensures Text(Slot(i)) == "containerd.io/gc.ref.content.precompile." + Decimal(i)
    ensures LeaseId(e) == "precompile-" + Text(Precompile(e))
  {
    SlotPrefix();
    assert GC_PREFIX + ("precompile." + Decimal(i)) == (GC_PREFIX + "precompile.") + Decimal(i);
  }

  lemma SlotPrefix()
    ensures GC_PREFIX + "precompile." == "containerd.io/gc.ref.content.precompile."
  {
  }

  /** `precompile_label` is injective in the engine name and the key hash. */
  lemma PrecompileLabelInjective(d: Engine, e: Engine)
    requires PrecompileLabel(d) == PrecompileLabel(e)
    ensures d == e
  {
    LabelParts(d);
    LabelParts(e);
    LastSeparator('/', PRECOMPILE_PREFIX + d.name, Decimal(d.version), PRECOMPILE_PREFIX + e.name, Decimal(e.version));
    assert (PRECOMPILE_PREFIX + d.name)[|PRECOMPILE_PREFIX|..] == d.name;
    assert (PRECOMPILE_PREFIX + e.name)[|PRECOMPILE_PREFIX|..] == e.name;
    DecimalInjective(d.version, e.version);
  }

  lemma OriginalIsNoLabel(d: Engine, e: Engine)
    ensures PrecompileLabel(d) + "/original" != PrecompileLabel(e)
  {
    if PrecompileLabel(d) + "/original" == PrecompileLabel(e) {
      LabelParts(e);
      assert PrecompileLabel(d) + "/original" == PrecompileLabel(d) + "/" + "original";
      LastSeparator('/', PrecompileLabel(d), "original", PRECOMPILE_PREFIX + e.name, Decimal(e.version));
    }
  }

  lemma GcTail(a: string, b: string)
    requires GC_PREFIX + a == GC_PREFIX + b
    ensures a == b
  {
    assert (GC_PREFIX + a)[|GC_PREFIX|..] == a && (GC_PREFIX + b)[|GC_PREFIX|..] == b;
  }

  lemma GcNameInjective(k: Key, l: Key)
    requires IsGcRef(k) && IsGcRef(l) && GcName(k) == GcName(l)
    ensures k == l
  {
    assert GcName(k)[0] == GcName(l)[0];
    if k.Slot? {
      assert ("precompile." + Decimal(k.index))[|"precompile."|..] == Decimal(k.index);
      assert ("precompile." + Decimal(l.index))[|"precompile."|..] == Decimal(l.index);
      DecimalInjective(k.index, l.index);
    } else if k.Child? {
      assert ("l." + Decimal(k.index))[|"l."|..] == Decimal(k.index);
      assert ("l." + Decimal(l.index))[|"l."|..] == Decimal(l.index);
      DecimalInjective(k.index, l.index);
    }
  }

  /** Different keys have different label strings, whatever the engine names contain. */
  lemma TextInjective(k: Key, l: Key)
    requires Text(k) == Text(l)
    ensures k == l
  {
    assert IsGcRef(k) ==> Text(k)[0] == 'c';
    assert IsGcRef(l) ==> Text(l)[0] == 'c';
    assert !IsGcRef(k) ==> Text(k)[0] == 'r';
    assert !IsGcRef(l) ==> Text(l)[0] == 'r';
    if IsGcRef(k) {
      GcTail(GcName(k), GcName(l));
      GcNameInjective(k, l);
    } else if k.Precompile? && l.Precompile? {
      PrecompileLabelInjective(k.engine, l.engine);
    } else if k.Original? && l.Original? {
      var a, b := PrecompileLabel(k.engine), PrecompileLabel(l.engine);
      assert (a + "/original")[..|a|] == a && (b + "/original")[..|b|] == b;
      PrecompileLabelInjective(k.engine, l.engine);
    } else {
      OriginalIsNoLabel(k.engine, l.engine);
      OriginalIsNoLabel(l.engine, k.engine);
    }
  }

  /** So leases of different engines are different leases, and of one engine the same. */
  lemma LeaseIdInjective(d: Engine, e: Engine)
    ensures LeaseId(d) == LeaseId(e) <==> d == e
  {
    if LeaseId(d) == LeaseId(e) {
      assert LeaseId(d)[|"precompile-"|..] == PrecompileLabel(d);
      assert LeaseId(e)[|"precompile-"|..] == PrecompileLabel(e);
      PrecompileLabelInjective(d, e);
    }
  }
}
