/** The back-to-top button: shown once the page has scrolled past the bottom
    edge of the hero section, and scrolling the page to the top when
    clicked. */
module BackToTop {

  /** The bottom edge of the hero section. */
  function HeroBottom(heroTop: int, heroHeight: int): int {
    heroTop + heroHeight
  }

  /** The scroll listener's test for the 'visible' marker. */
  predicate Visible(y: real, heroTop: int, heroHeight: int) {
    y > HeroBottom(heroTop, heroHeight) as real
  }

  /** The position the click listener scrolls to. */
  const TopOfPage: int := 0

  /** The boundary: hidden with the offset exactly at the hero's bottom edge,
      shown at any offset past it. */
  lemma Boundary(heroTop: int, heroHeight: int, y: real)
    ensures !Visible((heroTop + heroHeight) as real, heroTop, heroHeight)
    ensures y > (heroTop + heroHeight) as real ==> Visible(y, heroTop, heroHeight)
    ensures y <= (heroTop + heroHeight) as real ==> !Visible(y, heroTop, heroHeight)
  {
  }

  /** Once shown, scrolling further down keeps the button shown; once
      hidden, scrolling further up keeps it hidden. */
  lemma Monotone(y1: real, y2: real, heroTop: int, heroHeight: int)
    requires y1 <= y2
    ensures Visible(y1, heroTop, heroHeight) ==> Visible(y2, heroTop, heroHeight)
    ensures !Visible(y2, heroTop, heroHeight) ==> !Visible(y1, heroTop, heroHeight)
  {
  }

  /** Clicking the button takes the page to where the button is hidden again,
      for a hero section that lies on the page. */
  lemma ClickHidesButton(heroTop: int, heroHeight: int)
    requires heroTop >= 0 && heroHeight >= 0
    ensures !Visible(TopOfPage as real, heroTop, heroHeight)
  {
  }
}
