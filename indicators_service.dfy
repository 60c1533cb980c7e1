/** The indicator-code helpers of the indicators service: reading the stored
    codes of a portfolio item, which come either in the old form (a plain list of
    main codes) or the new form (an object with main and sub lists), and checking
    requested codes against the active indicators. */
module IndicatorsService {
  import opened Common

  // ---------------------------------------------------------------
  // normalizeIndicatorCodes
  // ---------------------------------------------------------------

  /** The JSON value stored for an item's codes. */
  datatype StoredCodes =
    | ListValue(codes: seq<string>)
    | ObjectValue(main: Option<seq<string>>, sub: Option<seq<string>>)
    | NullValue
    | OtherValue

  datatype Codes = Codes(main: seq<string>, sub: seq<string>)

  /** `normalizeIndicatorCodes`: a list is the main codes, an object gives its two lists (empty
      when absent), anything else no codes at all. */
  function NormalizeIndicatorCodes(v: StoredCodes): (r: Codes)
    ensures v.ListValue? ==> r == Codes(v.codes, [])
    ensures v.ObjectValue? ==> r.main == v.main.GetOr([]) && r.sub == v.sub.GetOr([])
    ensures v.NullValue? || v.OtherValue? ==> r == Codes([], [])
  {
    match v
    case ListValue(codes) => Codes(codes, [])
    case ObjectValue(main, sub) => Codes(main.GetOr([]), sub.GetOr([]))
    case _ => Codes([], [])
  }

  /** Normalising an already normalised value, written back in the new form, changes nothing. */
  lemma NormalizeIdempotent(v: StoredCodes)
    ensures var c := NormalizeIndicatorCodes(v);
      NormalizeIndicatorCodes(ObjectValue(Some(c.main), Some(c.sub))) == c
  {
  }

  // ---------------------------------------------------------------
  // validateIndicatorCodes
  // ---------------------------------------------------------------

  /** `codes.filter(code => !validCodes.includes(code))`, where the valid codes are the requested
      ones that are active. */
  function Inactive(codes: seq<string>, active: set<string>): seq<string> {
    if codes == [] then []
    else (if codes[0] in active then [] else [codes[0]]) + Inactive(codes[1..], active)
  }

  /** The filter keeps each inactive code as often as it was requested and drops every active one. */
  lemma {:induction false} InactiveCounts(codes: seq<string>, active: set<string>)
    ensures forall c :: multiset(Inactive(codes, active))[c] == if c in active then 0 else multiset(codes)[c]
  {
    if codes != [] {
      InactiveCounts(codes[1..], active);
      assert codes == [codes[0]] + codes[1..];
    }
  }

  const MainPrefix: string := "Invalid main indicator codes: "
  const SubPrefix: string := "Invalid sub-indicator codes: "

  /** The error for one list, if any of its codes is not active. */
  function ListError(prefix: string, codes: Option<seq<string>>, active: set<string>): seq<string> {
    if codes == None || codes.value == [] then []
    else if Inactive(codes.value, active) == [] then []
    else [prefix + Join(Inactive(codes.value, active), ", ")]
  }

  /** The errors of `validateIndicatorCodes`: the main list's, then the sub list's. */
  function ValidationErrors(main: Option<seq<string>>, sub: Option<seq<string>>,
                            activeMain: set<string>, activeSub: set<string>): seq<string> {
    ListError(MainPrefix, main, activeMain) + ListError(SubPrefix, sub, activeSub)
  }

  /** `validateIndicatorCodes`, with the active main and sub codes as inputs. */
  method ValidateIndicatorCodes(main: Option<seq<string>>, sub: Option<seq<string>>,
                                activeMain: set<string>, activeSub: set<string>)
    returns (valid: bool, errors: seq<string>)
    ensures errors == ValidationErrors(main, sub, activeMain, activeSub)
    ensures valid <==> errors == []
  {
    errors := [];
    if main.Some? && |main.value| > 0 {
      var invalidMain := Inactive(main.value, activeMain);
      if |invalidMain| > 0 {
        errors := errors + [MainPrefix + Join(invalidMain, ", ")];
      }
    }
    if sub.Some? && |sub.value| > 0 {
      var invalidSub := Inactive(sub.value, activeSub);
      if |invalidSub| > 0 {
        errors := errors + [SubPrefix + Join(invalidSub, ", ")];
      }
    }
    valid := |errors| == 0;
  }

  /** Every code of a list is active exactly when none is reported. */
  lemma {:induction false} InactiveEmpty(codes: seq<string>, active: set<string>)
    ensures Inactive(codes, active) == [] <==> forall i :: 0 <= i < |codes| ==> codes[i] in active
  {
    var r := Inactive(codes, active);
    InactiveCounts(codes, active);
    if r == [] {
      forall i | 0 <= i < |codes|
        ensures codes[i] in active
      {
        assert multiset(codes)[codes[i]] > 0;
        assert multiset(r)[codes[i]] == 0;
      }
    } else {
      assert multiset(r)[r[0]] > 0;
      assert r[0] in multiset(codes);
    }
  }

  /** At most two errors; the codes are valid exactly when every requested code is active, and
      absent or empty lists are never reported. */
  lemma ValidationProperties(main: Option<seq<string>>, sub: Option<seq<string>>,
                             activeMain: set<string>, activeSub: set<string>)
    ensures |ValidationErrors(main, sub, activeMain, activeSub)| <= 2
    ensures ValidationErrors(main, sub, activeMain, activeSub) == [] <==>
      (main.Some? ==> forall i :: 0 <= i < |main.value| ==> main.value[i] in activeMain) &&
      (sub.Some? ==> forall i :: 0 <= i < |sub.value| ==> sub.value[i] in activeSub)
    ensures main == None || main == Some([]) ==>
      ValidationErrors(main, sub, activeMain, activeSub) == ListError(SubPrefix, sub, activeSub)
    ensures sub == None || sub == Some([]) ==>
      ValidationErrors(main, sub, activeMain, activeSub) == ListError(MainPrefix, main, activeMain)
  {
    if main.Some? {
      InactiveEmpty(main.value, activeMain);
    }
    if sub.Some? {
      InactiveEmpty(sub.value, activeSub);
    }
  }

  /** The main error, when there is one, comes first and names exactly the inactive main codes. */
  lemma MainErrorFirst(main: seq<string>, sub: Option<seq<string>>, activeMain: set<string>, activeSub: set<string>)
    requires exists i :: 0 <= i < |main| && main[i] !in activeMain
    ensures var errors := ValidationErrors(Some(main), sub, activeMain, activeSub);
      |errors| >= 1 && errors[0] == MainPrefix + Join(Inactive(main, activeMain), ", ")
  {
    InactiveEmpty(main, activeMain);
  }
}
