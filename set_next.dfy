/** The confirmation rule of boot_set_next. */
module SetNext {

  /**
    The confirmation boot_set_next acts on: a request for the running
    (active) slot is always a confirming one; otherwise the caller's
    confirm argument decides.
   */
  function EffectiveConfirm(active: bool, confirm: bool): (c: bool)
    ensures active ==> c
    ensures !active ==> (c <==> confirm)
  {
    active || confirm
  }

  /** For the active slot the passed confirm value makes no difference. */
  lemma ConfirmIgnoredWhenActive(confirm1: bool, confirm2: bool)
    ensures EffectiveConfirm(true, confirm1) == EffectiveConfirm(true, confirm2)
  {
  }

  /** Only an inactive slot can be set as next without being confirmed (a corollary of EffectiveConfirm's contract). */
  lemma UnconfirmedOnlyWhenInactive(active: bool, confirm: bool)
    ensures !EffectiveConfirm(active, confirm) <==> !active && !confirm
  {
  }
}
