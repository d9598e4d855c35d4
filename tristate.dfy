// The tri-state outcome of one probe stage: whether the stage ran and,
// if it did, whether it succeeded.
module Tristate {

  datatype Tri = Tri(ran: bool, yesno: bool)

  /** The zero value a fresh record starts with: not run. */
  const Unrun := Tri(false, false)

  /** tri.String: "-" when not run (whatever yesno holds), "t" or "f" otherwise. */
  function Render(t: Tri): (r: string)
    ensures |r| == 1 && r != "!"
    ensures r == "-" <==> !t.ran
    ensures r == "t" <==> t.ran && t.yesno
    ensures r == "f" <==> t.ran && !t.yesno
  {
    if !t.ran then "-"
    else if t.yesno then "t"
    else if !t.yesno then "f"
    else assert false; "!"
  }

  /** Two outcomes render alike exactly when both did not run, or both ran with the same result. */
  lemma RenderInjective(t: Tri, u: Tri)
    ensures Render(t) == Render(u) <==> (!t.ran && !u.ran) || (t.ran && u.ran && t.yesno == u.yesno)
  {
  }
}
