/**
  Size of the trailer magic once padded to the largest flash write alignment
  (BOOT_MAX_ALIGN, BOOT_MAGIC_ALIGN_SIZE), for each build configuration.
 */
module MagicAlign {

  import opened Wrappers

  /** BOOT_MAGIC_SZ: the magic is sixteen bytes. */
  const MagicSize: nat := 16

  /** BOOT_MAX_ALIGN when MCUBOOT_BOOT_MAX_ALIGN is not configured. */
  const DefaultMaxAlign: nat := 8

  /** The upgrade strategy selected at build time. */
  datatype UpgradeMode = SwapUsingMove | SwapUsingScratch | SwapUsingOffset | OtherUpgradeMode {
    predicate IsSwapMode() {
      SwapUsingMove? || SwapUsingScratch? || SwapUsingOffset?
    }
  }

  /** The build settings the alignment depends on: the mode and MCUBOOT_BOOT_MAX_ALIGN, if set. */
  datatype BuildConfig = BuildConfig(mode: UpgradeMode, configuredMaxAlign: Option<nat>)

  /** The compile-time check: a configured maximum alignment lies in [8, 32] in the swap modes. */
  predicate StaticAssertHolds(cfg: BuildConfig): (holds: bool)
    ensures cfg.configuredMaxAlign.None? ==> holds
    ensures !cfg.mode.IsSwapMode() ==> holds
    ensures holds && cfg.mode.IsSwapMode() ==> 8 <= MaxAlign(cfg) <= 32
    ensures holds <==> (cfg.mode.IsSwapMode() ==> 8 <= MaxAlign(cfg) <= 32)
  {
    cfg.configuredMaxAlign.Some? && cfg.mode.IsSwapMode() ==>
      8 <= cfg.configuredMaxAlign.value <= 32
  }

  /** ALIGN_UP is only meaningful for a positive alignment. */
  predicate AlignmentPositive(cfg: BuildConfig) {
    cfg.configuredMaxAlign.Some? ==> cfg.configuredMaxAlign.value > 0
  }

  /** n is a whole number of align-sized units. */
  predicate IsMultiple(n: nat, align: nat)
    requires align > 0
    decreases n
  {
    n == 0 || (n >= align && IsMultiple(n - align, align))
  }

  /** k units of align make a multiple of align. */
  lemma {:induction false} UnitsAreMultiple(k: nat, align: nat)
    requires align > 0
    ensures IsMultiple(k * align, align)
  {
    if k > 0 {
      UnitsAreMultiple(k - 1, align);
      assert k * align - align == (k - 1) * align;
    }
  }

  /** The number of units in a multiple of align: every multiple is some k units. */
  function Units(n: nat, align: nat): (k: nat)
    requires align > 0 && IsMultiple(n, align)
    ensures k * align == n
    decreases n
  {
    if n == 0 then 0 else Units(n - align, align) + 1
  }

  /** ALIGN_UP: round num up to a multiple of align, adding less than one unit. */
  function AlignUp(num: nat, align: nat): (r: nat)
    requires align > 0
    ensures IsMultiple(r, align)
    ensures num <= r < num + align
    decreases num
  {
    if num == 0 then 0
    else if num <= align then align
    else AlignUp(num - align, align) + align
  }

  /** AlignUp gives the least multiple of align that is at least num. */
  lemma {:induction false} AlignUpIsLeast(num: nat, align: nat, m: nat)
    requires align > 0 && num <= m && IsMultiple(m, align)
    ensures AlignUp(num, align) <= m
    decreases num
  {
    if num > align {
      AlignUpIsLeast(num - align, align, m - align);
    }
  }

  /** BOOT_MAX_ALIGN: the configured value, or 8. */
  function MaxAlign(cfg: BuildConfig): (a: nat)
    ensures AlignmentPositive(cfg) ==> a > 0
    ensures cfg.configuredMaxAlign.None? ==> a == DefaultMaxAlign
    ensures cfg.configuredMaxAlign.Some? ==> a == cfg.configuredMaxAlign.value
  {
    match cfg.configuredMaxAlign
    case Some(a) => a
    case None => DefaultMaxAlign
  }

  /**
    BOOT_MAGIC_ALIGN_SIZE: the magic rounded up to the maximum alignment when
    one is configured, the bare magic size otherwise. Either way it is a
    multiple of BOOT_MAX_ALIGN that holds the magic with less than one
    alignment unit of padding.
   */
  function MagicAlignSize(cfg: BuildConfig): (n: nat)
    requires AlignmentPositive(cfg)
    ensures IsMultiple(n, MaxAlign(cfg))
    ensures MagicSize <= n < MagicSize + MaxAlign(cfg)
    ensures cfg.configuredMaxAlign.None? ==> n == MagicSize && MaxAlign(cfg) == DefaultMaxAlign
  {
    match cfg.configuredMaxAlign
    case Some(a) => AlignUp(MagicSize, a)
    case None => MagicSize
  }

  /** The padded magic is the least multiple of BOOT_MAX_ALIGN that holds the magic. */
  lemma MagicAlignSizeIsLeast(cfg: BuildConfig, m: nat)
    requires AlignmentPositive(cfg)
    requires MagicSize <= m && IsMultiple(m, MaxAlign(cfg))
    ensures MagicAlignSize(cfg) <= m
  {
    if cfg.configuredMaxAlign.Some? {
      AlignUpIsLeast(MagicSize, MaxAlign(cfg), m);
    }
  }

  /** In the swap modes the static assertion already makes the alignment positive. */
  lemma SwapModeAlignmentPositive(cfg: BuildConfig)
    requires cfg.mode.IsSwapMode() && StaticAssertHolds(cfg)
    ensures AlignmentPositive(cfg)
    ensures 8 <= MaxAlign(cfg) <= 32
  {
  }

  /**
    In the swap modes, with an alignment a in [8, 32], the padded magic is
    two units when a is below 16 and one unit otherwise.
   */
  lemma MagicAlignSizeInSwapModes(cfg: BuildConfig)
    requires cfg.mode.IsSwapMode() && StaticAssertHolds(cfg)
    ensures AlignmentPositive(cfg)
    ensures MagicAlignSize(cfg) == if MaxAlign(cfg) < MagicSize then 2 * MaxAlign(cfg) else MaxAlign(cfg)
  {
  }
}
