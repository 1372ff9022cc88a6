/** The quote wizard's form record, the service toggle that edits its list of
    wanted services, and the request body a submit builds from it. */
module QuoteForm {
  import opened Wrappers
  import opened Seqs
  import opened Json
  import ParseInt
  import Submission

  /** The property types offered as buttons on step 1. */
  const PropertyTypes: seq<string> :=
    ["Apartment", "House", "Townhouse", "Commercial", "Mixed-use"]

  /** The services offered as toggle buttons on step 2. */
  const Services: seq<string> :=
    ["Full management", "Tenant finding only", "Rent collection",
     "Maintenance coordination", "Legal & compliance", "All of the above"]

  /** The area select's options, the empty placeholder first. */
  const AreaOptions: seq<string> :=
    ["", "Town Centre", "South District", "Westside", "Europort", "Ocean Village",
     "Catalan Bay", "Mid-Town", "Upper Town", "Other"]

  /** The current-situation select's option values, the empty placeholder first. */
  const SituationOptions: seq<string> :=
    ["", "property-empty", "tenant-in-place", "switching-agent", "new-purchase", "other"]

  /** Every field holds the text its input shows; `numProperties` and
      `estimatedRent` are only turned into numbers when a request is built. */
  datatype Form = Form(
    propertyType: string,
    numProperties: string,
    area: string,
    servicesNeeded: seq<string>,
    estimatedRent: string,
    currentSituation: string,
    name: string,
    email: string,
    phone: string,
    message: string)

  const Initial: Form := Form("", "1", "", [], "", "", "", "", "", "")

  /** `list` with every occurrence of `s` filtered out. */
  function Without(list: seq<string>, s: string): (r: seq<string>)
    ensures forall x :: x in r <==> x in list && x != s
    ensures |r| <= |list|
  {
    if |list| == 0 then []
    else (if list[0] == s then [] else [list[0]]) + Without(list[1..], s)
  }

  /** Filtering commutes with concatenation, so the entries that survive keep
      their relative order. */
  lemma {:induction false} WithoutConcat(a: seq<string>, b: seq<string>, s: string)
    ensures Without(a + b, s) == Without(a, s) + Without(b, s)
  {
    if |a| == 0 {
      assert a + b == b;
    } else {
      assert (a + b)[1..] == a[1..] + b;
      WithoutConcat(a[1..], b, s);
    }
  }

  /** Filtering out an absent value changes nothing. */
  lemma {:induction false} WithoutAbsent(list: seq<string>, s: string)
    requires s !in list
    ensures Without(list, s) == list
  {
    if |list| > 0 {
      WithoutAbsent(list[1..], s);
    }
  }

  /** Filtering drops every copy of `s` and keeps every copy of anything else. */
  lemma {:induction false} WithoutCounts(list: seq<string>, s: string)
    ensures multiset(Without(list, s)) == multiset(list)[s := 0]
  {
    if |list| > 0 {
      WithoutCounts(list[1..], s);
      assert list == [list[0]] + list[1..];
    }
  }

  /** Filtering cannot create a duplicate. */
  lemma {:induction false} WithoutDistinct(list: seq<string>, s: string)
    requires Distinct(list)
    ensures Distinct(Without(list, s))
  {
    if |list| > 0 {
      WithoutDistinct(list[1..], s);
      var rest := Without(list[1..], s);
      assert list[0] !in list[1..];
      assert list[0] !in rest;
    }
  }

  /** `toggleService(s)`: remove every `s` when present, append it when absent. */
  function Toggle(list: seq<string>, s: string): (r: seq<string>)
    ensures s in r <==> s !in list
    ensures s !in list ==> r == list + [s]
    ensures forall x :: x != s ==> multiset(r)[x] == multiset(list)[x]
    ensures Without(r, s) == Without(list, s)
  {
    if s in list then
      WithoutCounts(list, s);
      var r := Without(list, s);
      WithoutAbsent(r, s);
      r
    else
      WithoutConcat(list, [s], s);
      list + [s]
  }

  /** A list without duplicates stays without duplicates. */
  lemma ToggleKeepsDistinct(list: seq<string>, s: string)
    requires Distinct(list)
    ensures Distinct(Toggle(list, s))
  {
    if s in list {
      WithoutDistinct(list, s);
    }
  }

  /** Toggling an absent service on and off again restores the exact list. */
  lemma ToggleTwiceAbsent(list: seq<string>, s: string)
    requires s !in list
    ensures Toggle(Toggle(list, s), s) == list
  {
    WithoutAbsent(list, s);
  }

  /** Toggling a present service off and on again keeps the same members; with
      no duplicates it is a permutation that moves `s` to the end. */
  lemma ToggleTwicePresent(list: seq<string>, s: string)
    requires s in list
    ensures forall x :: x in Toggle(Toggle(list, s), s) <==> x in list
    ensures Distinct(list) ==> multiset(Toggle(Toggle(list, s), s)) == multiset(list)
    ensures Toggle(Toggle(list, s), s) == Without(list, s) + [s]
  {
    WithoutCounts(list, s);
    if Distinct(list) {
      var i :| 0 <= i < |list| && list[i] == s;
      DistinctCount(list, i);
    }
  }

  /** In a list without duplicates each member occurs exactly once. */
  lemma {:induction false} DistinctCount(list: seq<string>, i: int)
    requires Distinct(list) && 0 <= i < |list|
    ensures multiset(list)[list[i]] == 1
  {
    if i == 0 {
      assert list == [list[0]] + list[1..];
      assert list[0] !in list[1..];
    } else {
      DistinctCount(list[1..], i - 1);
      assert list == [list[0]] + list[1..];
    }
  }

  /** `parseInt(num_properties) || 1`: the parsed number unless it is NaN or 0. */
  function NumProperties(text: string): (n: int)
    ensures n != 0
    ensures ParseInt.Parse(text).Some? && ParseInt.Parse(text).value != 0 ==>
              n == ParseInt.Parse(text).value
    ensures n == 1 || ParseInt.Parse(text) == Some(n)
  {
    match ParseInt.Parse(text)
    case Some(v) => if v != 0 then v else 1
    case None => 1
  }

  /** Unparsable and zero text fall back to 1; a trailing non-digit suffix is
      ignored; and nothing clamps the count to the input's 1..50 range, so a
      negative or large count reaches the request. */
  lemma NumPropertiesExamples()
    ensures NumProperties("abc") == 1
    ensures NumProperties("") == 1
    ensures NumProperties("0") == 1
    ensures NumProperties("12abc") == 12
    ensures NumProperties("-3") == -3
    ensures NumProperties("75") == 75
  {
  }

  /** `estimated_rent ? parseFloat(estimated_rent) : null`. */
  function EstimatedRent(text: string): (j: Json)
    ensures j == JNull <==> text == ""
    ensures text != "" ==> j == JFloat(text)
  {
    if text == "" then JNull else JFloat(text)
  }

  /** The keys of the submitted record, in the order the spread writes them. */
  const PayloadKeys: seq<string> :=
    ["property_type", "num_properties", "area", "services_needed", "estimated_rent",
     "current_situation", "name", "email", "phone", "message", "site"]

  /** The members of the submitted record: the form spread with the number
      of properties and the rent coerced, and the site tag appended. */
  function PayloadFields(f: Form): map<string, Json> {
    map[
      "property_type" := JStr(f.propertyType),
      "num_properties" := JNum(NumProperties(f.numProperties)),
      "area" := JStr(f.area),
      "services_needed" := StrArray(f.servicesNeeded),
      "estimated_rent" := EstimatedRent(f.estimatedRent),
      "current_situation" := JStr(f.currentSituation),
      "name" := JStr(f.name),
      "email" := JStr(f.email),
      "phone" := JStr(f.phone),
      "message" := JStr(f.message),
      "site" := JStr(Submission.Site)]
  }

  /** The body of the POST a submit issues. */
  function Payload(f: Form): (p: Json)
    ensures p.JObj? && p.keys == PayloadKeys
    ensures GetNum(p, "num_properties") == Some(NumProperties(f.numProperties))
    ensures Get(p, "estimated_rent") == Some(EstimatedRent(f.estimatedRent))
    ensures Get(p, "services_needed") == Some(StrArray(f.servicesNeeded))
    ensures GetStr(p, "site") == Some(Submission.Site)
  {
    JObj(PayloadKeys, PayloadFields(f))
  }

  /** The form's text fields reach the request unchanged. */
  lemma PayloadPassesThrough(f: Form)
    ensures var p := Payload(f);
      && GetStr(p, "property_type") == Some(f.propertyType)
      && GetStr(p, "area") == Some(f.area)
      && GetStr(p, "current_situation") == Some(f.currentSituation)
      && GetStr(p, "name") == Some(f.name)
      && GetStr(p, "email") == Some(f.email)
      && GetStr(p, "phone") == Some(f.phone)
      && GetStr(p, "message") == Some(f.message)
  {
  }

  /** The record names each of its keys once: no field of the form is dropped,
      duplicated or renamed. */
  lemma PayloadWellFormed(f: Form)
    ensures WellFormedObject(Payload(f))
  {
    assert Distinct(PayloadKeys);
    assert PayloadFields(f).Keys == (set k | k in PayloadKeys);
  }
}
