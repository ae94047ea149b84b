/**
 * The accordion's open state: `value` names the open item (`None` for
 * none), `handleSetValue` is the only way to change it, and an item is
 * open exactly when `value` equals its target.
 */
module Accordion {
  import opened Results

  /** `type`: "single" | "multiple" */
  datatype AccordionType = Single | Multiple

  datatype AccordionState = AccordionState(kind: AccordionType, value: Option<string>)

  /** The first render: `type` defaults to single, `value` to `defaultValue` or none. */
  function Create(kind: Option<AccordionType>, defaultValue: Option<string>): (a: AccordionState)
    ensures a.kind == (if kind.Some? then kind.value else Single)
    ensures a.value == defaultValue
  {
    AccordionState(kind.GetOr(Single), defaultValue)
  }

  /** `isOpen` of a trigger or content with `targetValue` `target`. */
  predicate IsOpen(a: AccordionState, target: string) {
    a.value == Some(target)
  }

  /**
   * `handleSetValue`: in multiple mode the value is set as given; in single
   * mode selecting the open item closes it, anything else opens.
   */
  function SetValue(a: AccordionState, next: Option<string>): (r: AccordionState)
    ensures r.kind == a.kind
    ensures a.kind == Multiple ==> r.value == next
    ensures a.kind == Single && a.value == next ==> r.value == None
    ensures a.kind == Single && a.value != next ==> r.value == next
  {
    match a.kind
    case Multiple => a.(value := next)
    case Single => a.(value := if a.value == next then None else next)
  }

  /** A trigger click on `target`. */
  function Select(a: AccordionState, target: string): (r: AccordionState)
    ensures r.kind == a.kind
    ensures IsOpen(r, target) <==> a.kind == Multiple || !IsOpen(a, target)
    ensures forall u :: u != target ==> !IsOpen(r, u)
  {
    SetValue(a, Some(target))
  }

  /** At most one item is open, in either mode. */
  lemma AtMostOneOpen(a: AccordionState, t: string, u: string)
    requires IsOpen(a, t) && IsOpen(a, u)
    ensures t == u
  {
  }

  /** In single mode a click toggles the clicked item and closes any other. */
  lemma SingleClick(a: AccordionState, t: string, u: string)
    requires a.kind == Single
    ensures IsOpen(Select(a, t), t) <==> !IsOpen(a, t)
    ensures u != t ==> !IsOpen(Select(a, t), u)
  {
  }

  /** In single mode two clicks on one item restore the state when nothing, or that item, was open. */
  lemma SingleToggleTwice(a: AccordionState, t: string)
    requires a.kind == Single && (a.value == None || a.value == Some(t))
    ensures Select(Select(a, t), t) == a
  {
  }

  /** But when another item was open, two clicks leave everything closed. */
  lemma SingleToggleTwiceOtherOpen(a: AccordionState, t: string, u: string)
    requires a.kind == Single && a.value == Some(u) && u != t
    ensures Select(Select(a, t), t).value == None
  {
  }

  /** In multiple mode a click always opens: re-selecting an open item keeps it open. */
  lemma MultipleKeepsOpen(a: AccordionState, t: string)
    requires a.kind == Multiple
    ensures IsOpen(Select(a, t), t) && Select(Select(a, t), t) == Select(a, t)
  {
  }
}
