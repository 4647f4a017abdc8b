/** The rule-table check every module runs before touching the console:
    walk a list of mandatory names collecting those whose value is falsy,
    walk a list of unsupported names collecting those whose value is truthy,
    and report the first non-empty collection with a singular message for
    one name and a joined plural message for several. */
module Rules {
  import opened Python

  /** `opr`, the operation a module validates: the `state` selector when it
      is not None, `action` otherwise. */
  function Operation(params: Fields): Value
  {
    if Get(params, "state") != Nothing then Get(params, "state") else Get(params, "action")
  }

  /** The key `perform_task` dispatches on: `action`, or `state` when
      `action` is None. */
  function DispatchKey(params: Fields): Value
  {
    if Get(params, "action") == Nothing then Get(params, "state") else Get(params, "action")
  }

  /** With exactly one of `state` and `action` given, as the argument specs
      demand, the operation dispatched is the one validated. */
  lemma DispatchAgreesWithOperation(params: Fields)
    requires (Get(params, "state") == Nothing) != (Get(params, "action") == Nothing)
    ensures DispatchKey(params) == Operation(params)
  {
  }

  /** The names whose parameter value has truthiness `truthy`, in list
      order: the missing ones (`not params[x]`) when `truthy` is false, the
      ones given when it is true. */
  function Flagged(names: seq<string>, params: Fields, truthy: bool): (r: seq<string>)
    ensures |r| <= |names|
    ensures forall i :: 0 <= i < |r| ==> r[i] in names && Truthy(Get(params, r[i])) == truthy
  {
    if names == [] then []
    else
      var last := names[|names| - 1];
      Flagged(names[..|names| - 1], params, truthy) + (if Truthy(Get(params, last)) == truthy then [last] else [])
  }

  /** A name is collected exactly when it is in the list and its value has
      the truthiness asked for. */
  lemma {:induction false} FlaggedMembers(names: seq<string>, params: Fields, truthy: bool, x: string)
    ensures x in Flagged(names, params, truthy) <==> x in names && Truthy(Get(params, x)) == truthy
  {
    if names != [] {
      var init := names[..|names| - 1];
      assert names == init + [names[|names| - 1]];
      assert x in names <==> x in init || x == names[|names| - 1];
      FlaggedMembers(init, params, truthy, x);
    }
  }

  /** The walk looks at nothing but the truthiness of the listed values. */
  lemma {:induction false} FlaggedByTruth(names: seq<string>, p: Fields, q: Fields, truthy: bool)
    requires forall x :: x in names ==> Truthy(Get(p, x)) == Truthy(Get(q, x))
    ensures Flagged(names, p, truthy) == Flagged(names, q, truthy)
  {
    if names != [] {
      var init := names[..|names| - 1];
      assert names[|names| - 1] in names;
      assert forall x :: x in init ==> x in names;
      FlaggedByTruth(init, p, q, truthy);
    }
  }

  /** Two parameter bags whose listed values agree in truthiness get the
      same verdict. */
  lemma CheckByTruth(mandatory: seq<string>, unsupported: seq<string>, p: Fields, q: Fields, style: Style)
    requires forall x :: x in mandatory + unsupported ==> Truthy(Get(p, x)) == Truthy(Get(q, x))
    ensures Check(mandatory, unsupported, p, style) == Check(mandatory, unsupported, q, style)
  {
    assert forall x :: x in mandatory ==> x in mandatory + unsupported;
    assert forall x :: x in unsupported ==> x in mandatory + unsupported;
    FlaggedByTruth(mandatory, p, q, false);
    FlaggedByTruth(unsupported, p, q, true);
  }

  /** The `for each in list: if [not] params[each]: collate.append(each)` loop. */
  method Collect(names: seq<string>, params: Fields, truthy: bool) returns (collate: seq<string>)
    ensures collate == Flagged(names, params, truthy)
  {
    collate := [];
    var i := 0;
    while i < |names|
      invariant 0 <= i <= |names|
      invariant collate == Flagged(names[..i], params, truthy)
    {
      if Truthy(Get(params, names[i])) == truthy {
        collate := collate + [names[i]];
      }
      assert names[..i + 1][..i] == names[..i];
      i := i + 1;
    }
    assert names[..i] == names;
  }

  function MissingMessage(collate: seq<string>, sep: string): string
    requires collate != []
  {
    if |collate| == 1 then "mandatory parameter '" + collate[0] + "' is missing"
    else "mandatory parameters '" + Join(collate, sep) + "' are missing"
  }

  function UnsupportedMessage(collate: seq<string>, sep: string): string
    requires collate != []
  {
    if |collate| == 1 then "unsupported parameter: " + collate[0]
    else "unsupported parameters: " + Join(collate, sep)
  }

  /** The rule table entry chosen for a request, or the message with which
      the choice itself already fails. */
  datatype RuleChoice = Lists(mandatory: seq<string>, unsupported: seq<string>) | Rejected(msg: string)

  /** How a module words and orders its two checks: which list is walked
      first, and what joins several names in each plural message. */
  datatype Style = Style(mandatoryFirst: bool, mandatorySep: string, unsupportedSep: string)

  /** The verdict of the two walks: None when both come back empty,
      otherwise the message of the first walk that collected something. */
  function Check(mandatory: seq<string>, unsupported: seq<string>, params: Fields, style: Style): (r: Option<string>)
    ensures r.None? <==>
      (forall x :: x in mandatory ==> Truthy(Get(params, x))) &&
      (forall x :: x in unsupported ==> !Truthy(Get(params, x)))
    ensures style.mandatoryFirst && Flagged(mandatory, params, false) != [] ==>
      r == Some(MissingMessage(Flagged(mandatory, params, false), style.mandatorySep))
    ensures !style.mandatoryFirst && Flagged(unsupported, params, true) != [] ==>
      r == Some(UnsupportedMessage(Flagged(unsupported, params, true), style.unsupportedSep))
    ensures style.mandatoryFirst && Flagged(mandatory, params, false) == [] && Flagged(unsupported, params, true) != [] ==>
      r == Some(UnsupportedMessage(Flagged(unsupported, params, true), style.unsupportedSep))
    ensures !style.mandatoryFirst && Flagged(unsupported, params, true) == [] && Flagged(mandatory, params, false) != [] ==>
      r == Some(MissingMessage(Flagged(mandatory, params, false), style.mandatorySep))
  {
    var missing := Flagged(mandatory, params, false);
    var given := Flagged(unsupported, params, true);
    assert missing == [] <==> forall x :: x in mandatory ==> Truthy(Get(params, x)) by {
      forall x { FlaggedMembers(mandatory, params, false, x); }
      if missing != [] { assert missing[0] in missing; }
    }
    assert given == [] <==> forall x :: x in unsupported ==> !Truthy(Get(params, x)) by {
      forall x { FlaggedMembers(unsupported, params, true, x); }
      if given != [] { assert given[0] in given; }
    }
    if style.mandatoryFirst then
      if missing != [] then Some(MissingMessage(missing, style.mandatorySep))
      else if given != [] then Some(UnsupportedMessage(given, style.unsupportedSep))
      else None
    else
      if given != [] then Some(UnsupportedMessage(given, style.unsupportedSep))
      else if missing != [] then Some(MissingMessage(missing, style.mandatorySep))
      else None
  }

  /** The two walks, in the module's order, each stopping at the first
      non-empty collection. */
  method Validate(mandatory: seq<string>, unsupported: seq<string>, params: Fields, style: Style)
    returns (err: Option<string>)
    ensures err == Check(mandatory, unsupported, params, style)
  {
    var first := Collect(if style.mandatoryFirst then mandatory else unsupported, params, !style.mandatoryFirst);
    if first != [] {
      err := Some(if style.mandatoryFirst then MissingMessage(first, style.mandatorySep)
                  else UnsupportedMessage(first, style.unsupportedSep));
      return;
    }
    var second := Collect(if style.mandatoryFirst then unsupported else mandatory, params, style.mandatoryFirst);
    if second != [] {
      err := Some(if style.mandatoryFirst then UnsupportedMessage(second, style.unsupportedSep)
                  else MissingMessage(second, style.mandatorySep));
      return;
    }
    err := None;
  }
}
