/**
 * The click-to-reveal location panel shared by both terminal widgets.
 *
 * The panel's visibility is decided by its inline `style.display`, which
 * starts as the empty string, and by the widget's stylesheet, which hides
 * the panel (`display: none`). An activation reads only the inline value:
 * anything other than "none" counts as visible and is replaced by "none";
 * "none" is replaced by "block". The privacy notice is raised on an
 * activation that finds the panel inline-hidden, unless it was raised
 * before.
 *
 * Because the inline value starts empty, the first activation writes
 * "none" over a panel the stylesheet already hides: nothing changes on
 * screen, and the panel (with the notice) first appears on the second
 * activation.
 */
module Disclosure {

  /** What the toggle tests: `style.display !== 'none'`. */
  predicate InlineVisible(display: string) {
    display != "none"
  }

  /** What the visitor sees: an empty inline value defers to the stylesheet, which hides the panel. */
  predicate Shown(display: string) {
    display != "" && display != "none"
  }

  /** `(b).toString()` */
  function BoolText(b: bool): (t: string)
    ensures t == "true" || t == "false"
    ensures t == "true" <==> b
  {
    if b then "true" else "false"
  }

  /**
   * The panel's state: the inline display value, the widget's
   * `privacyNoticeShown` flag and the number of notices raised so far.
   */
  datatype Panel = Panel(display: string, noticeShown: bool, notices: nat)

  /** A freshly created panel: nothing set inline, no notice yet. */
  const Initial := Panel("", false, 0)

  /** One activation (click, or Enter/Space on the optimized widget). */
  function Activate(p: Panel): (q: Panel)
    ensures q.display == "none" || q.display == "block"
    ensures Shown(q.display) <==> !InlineVisible(p.display)
    ensures q.notices == p.notices || q.notices == p.notices + 1
    ensures q.notices == p.notices + 1 <==> Shown(q.display) && !p.noticeShown
    ensures q.noticeShown <==> p.noticeShown || q.notices == p.notices + 1
  {
    var wasVisible := InlineVisible(p.display);
    var raise := !wasVisible && !p.noticeShown;
    Panel(if wasVisible then "none" else "block",
          p.noticeShown || raise,
          if raise then p.notices + 1 else p.notices)
  }

  /** `n` activations in a row, starting from `p`. */
  function Iterate(p: Panel, n: nat): Panel
    decreases n
  {
    if n == 0 then p else Activate(Iterate(p, n - 1))
  }

  /** The flag and the count agree: the flag is set exactly when one notice has been raised. */
  predicate NoticeBookkeeping(p: Panel) {
    p.notices == if p.noticeShown then 1 else 0
  }

  /** Activations keep the flag and the count in step, so no more than one notice is ever raised. */
  lemma {:induction false} NoticeAtMostOnce(p: Panel, n: nat)
    requires NoticeBookkeeping(p)
    ensures NoticeBookkeeping(Iterate(p, n))
    ensures Iterate(p, n).notices <= 1
    ensures p.noticeShown ==> Iterate(p, n).notices == p.notices
    decreases n
  {
    if n > 0 {
      NoticeAtMostOnce(p, n - 1);
    }
  }

  /**
   * The whole history of a fresh panel: odd activations leave it inline
   * "none", even ones "block"; the notice appears at the second
   * activation and never again.
   */
  lemma {:induction false} FreshPanelHistory(n: nat)
    ensures Iterate(Initial, n).display ==
              if n == 0 then "" else if n % 2 == 1 then "none" else "block"
    ensures Iterate(Initial, n).notices == if n >= 2 then 1 else 0
    ensures Iterate(Initial, n).noticeShown <==> n >= 2
    decreases n
  {
    if n > 0 {
      FreshPanelHistory(n - 1);
    }
  }

  /** A fresh panel is on screen exactly after a positive, even number of activations. */
  lemma ShownAfterEvenActivations(n: nat)
    ensures Shown(Iterate(Initial, n).display) <==> n > 0 && n % 2 == 0
  {
    FreshPanelHistory(n);
  }

  /** The first activation changes nothing on screen and raises no notice; the second shows the panel and the notice. */
  lemma FirstActivationIsInvisible()
    ensures !Shown(Initial.display) && !Shown(Iterate(Initial, 1).display)
    ensures Iterate(Initial, 1).notices == 0
    ensures Shown(Iterate(Initial, 2).display) && Iterate(Initial, 2).notices == 1
  {
    FreshPanelHistory(1);
    FreshPanelHistory(2);
  }

  /** Two activations after the first return the inline value to where it was. */
  lemma {:induction false} ActivateTwiceRestoresDisplay(p: Panel)
    requires p.display == "none" || p.display == "block"
    ensures Activate(Activate(p)).display == p.display
  {
  }
}
