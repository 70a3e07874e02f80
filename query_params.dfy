/** The ordered name/value parameter lists the list pages build, and the plain object
    `Object.fromEntries` makes of them before the query string is written. */
module QueryParams {
  import opened Wrappers
  import opened JsText
  import opened UrlEncoding

  /** A parameter value as the pages push it: a string, or (on the background-check page) a
      number. */
  datatype ParamValue = Text(text: string) | Number(n: int)

  /** One `{ name, value }` element of a page's parameter list. */
  datatype QueryParam = QueryParam(name: string, value: ParamValue)

  /** `String(value)`: the text a value becomes in the query string. */
  function ValueText(v: ParamValue): string {
    match v
    case Text(s) => s
    case Number(n) => IntToString(n)
  }

  /** `params.map(p => [p.name, p.value])`, with each value already in its query-string form. */
  function Entries(params: seq<QueryParam>): (r: seq<Pair>)
    ensures |r| == |params|
    ensures forall i :: 0 <= i < |params| ==> r[i] == (params[i].name, ValueText(params[i].value))
  {
    if params == [] then [] else [(params[0].name, ValueText(params[0].value))] + Entries(params[1..])
  }

  /** A parameter that is pushed only when its condition holds. */
  function Optional(condition: bool, p: QueryParam): seq<QueryParam> {
    if condition then [p] else []
  }

  lemma EntriesOfConcat(a: seq<QueryParam>, b: seq<QueryParam>)
    ensures Entries(a + b) == Entries(a) + Entries(b)
  {
    var l := Entries(a + b);
    var r := Entries(a) + Entries(b);
    assert |l| == |r|;
    forall i | 0 <= i < |l| ensures l[i] == r[i] {
      if i < |a| { assert (a + b)[i] == a[i]; } else { assert (a + b)[i] == b[i - |a|]; }
    }
  }

  /** The values a list gives a name, the entries taken one list at a time. */
  lemma ValuesOfConcat(a: seq<QueryParam>, b: seq<QueryParam>, name: string)
    ensures Values(Entries(a + b), name) == Values(Entries(a), name) + Values(Entries(b), name)
  {
    EntriesOfConcat(a, b);
    ValuesConcat(Entries(a), Entries(b), name);
  }

  lemma ValuesOfOne(p: QueryParam, name: string)
    ensures Values(Entries([p]), name) == if p.name == name then [ValueText(p.value)] else []
  {
    assert Entries([p])[1..] == [];
  }

  lemma ValuesOfOptional(condition: bool, p: QueryParam, name: string)
    ensures Values(Entries(Optional(condition, p)), name) ==
      if condition && p.name == name then [ValueText(p.value)] else []
  {
    if condition {
      ValuesOfOne(p, name);
    }
  }

  /** The values a list of two fixed parameters and two optional ones gives a name: the shape
      of every list page's query. */
  lemma ValuesOfListQuery(p1: QueryParam, p2: QueryParam, c3: bool, p3: QueryParam, c4: bool, p4: QueryParam, name: string)
    ensures Values(Entries([p1, p2] + Optional(c3, p3) + Optional(c4, p4)), name) ==
      (if p1.name == name then [ValueText(p1.value)] else []) +
      (if p2.name == name then [ValueText(p2.value)] else []) +
      (if c3 && p3.name == name then [ValueText(p3.value)] else []) +
      (if c4 && p4.name == name then [ValueText(p4.value)] else [])
  {
    ValuesOfConcat([p1, p2] + Optional(c3, p3), Optional(c4, p4), name);
    ValuesOfConcat([p1, p2], Optional(c3, p3), name);
    ValuesOfConcat([p1], [p2], name);
    assert [p1] + [p2] == [p1, p2];
    ValuesOfOne(p1, name);
    ValuesOfOne(p2, name);
    ValuesOfOptional(c3, p3, name);
    ValuesOfOptional(c4, p4, name);
  }

  /** The same list with four distinct names: the two fixed parameters give one value each,
      an optional one gives its value exactly when it is pushed, and any other name gets
      nothing. */
  lemma ValuesOfNamedListQuery(p1: QueryParam, p2: QueryParam, c3: bool, p3: QueryParam, c4: bool, p4: QueryParam, name: string)
    requires p1.name != p2.name && p1.name != p3.name && p1.name != p4.name
    requires p2.name != p3.name && p2.name != p4.name && p3.name != p4.name
    ensures var e := Entries([p1, p2] + Optional(c3, p3) + Optional(c4, p4));
      && Values(e, p1.name) == [ValueText(p1.value)]
      && Values(e, p2.name) == [ValueText(p2.value)]
      && Values(e, p3.name) == (if c3 then [ValueText(p3.value)] else [])
      && Values(e, p4.name) == (if c4 then [ValueText(p4.value)] else [])
      && (name !in {p1.name, p2.name, p3.name, p4.name} ==> Values(e, name) == [])
  {
    ValuesOfListQuery(p1, p2, c3, p3, c4, p4, p1.name);
    ValuesOfListQuery(p1, p2, c3, p3, c4, p4, p2.name);
    ValuesOfListQuery(p1, p2, c3, p3, c4, p4, p3.name);
    ValuesOfListQuery(p1, p2, c3, p3, c4, p4, p4.name);
    ValuesOfListQuery(p1, p2, c3, p3, c4, p4, name);
  }

  /** The list with four distinct names turned into an object: each name keeps the values the
      list gives it, since it gives none more than one. */
  lemma ObjectOfNamedListQuery(p1: QueryParam, p2: QueryParam, c3: bool, p3: QueryParam, c4: bool, p4: QueryParam, name: string)
    requires p1.name != p2.name && p1.name != p3.name && p1.name != p4.name
    requires p2.name != p3.name && p2.name != p4.name && p3.name != p4.name
    ensures var obj := FromEntries(Entries([p1, p2] + Optional(c3, p3) + Optional(c4, p4)));
      && Values(obj, p1.name) == [ValueText(p1.value)]
      && Values(obj, p2.name) == [ValueText(p2.value)]
      && Values(obj, p3.name) == (if c3 then [ValueText(p3.value)] else [])
      && Values(obj, p4.name) == (if c4 then [ValueText(p4.value)] else [])
      && (name !in {p1.name, p2.name, p3.name, p4.name} ==> Values(obj, name) == [])
  {
    var e := Entries([p1, p2] + Optional(c3, p3) + Optional(c4, p4));
    ValuesOfNamedListQuery(p1, p2, c3, p3, c4, p4, name);
    FromEntriesKeepsSingleValues(e, p1.name);
    FromEntriesKeepsSingleValues(e, p2.name);
    FromEntriesKeepsSingleValues(e, p3.name);
    FromEntriesKeepsSingleValues(e, p4.name);
    if name !in {p1.name, p2.name, p3.name, p4.name} {
      FromEntriesKeepsSingleValues(e, name);
    }
  }

  /** The value the last entry named `name` carries, if any entry does. */
  function LastValue(entries: seq<Pair>, name: string): Option<string> {
    if entries == [] then None
    else if entries[|entries| - 1].0 == name then Some(entries[|entries| - 1].1)
    else LastValue(entries[..|entries| - 1], name)
  }

  /** `Object.fromEntries(entries)`: one property per name, in order of first appearance,
      holding the value of the LAST entry with that name. Assigning a property that exists keeps
      its place and replaces its value, which is `set` on a pair list without repeated names. */
  function FromEntries(entries: seq<Pair>): (obj: seq<Pair>)
    ensures forall n :: Values(obj, n) == (match LastValue(entries, n) case None => [] case Some(v) => [v])
  {
    if entries == [] then []
    else
      var last := entries[|entries| - 1];
      SetPairs(FromEntries(entries[..|entries| - 1]), last.0, last.1)
  }

  /** The last value of a name is the last of all the values the entries give it. */
  lemma {:induction false} LastValueIsLastOfValues(entries: seq<Pair>, name: string)
    ensures var vs := Values(entries, name);
      LastValue(entries, name) == if vs == [] then None else Some(vs[|vs| - 1])
  {
    if entries != [] {
      var init := entries[..|entries| - 1];
      var last := entries[|entries| - 1];
      assert init + [last] == entries;
      ValuesAppend(init, last, name);
      LastValueIsLastOfValues(init, name);
    }
  }

  /** A name the entries give at most one value reaches the object with exactly its values. */
  lemma FromEntriesKeepsSingleValues(entries: seq<Pair>, name: string)
    requires |Values(entries, name)| <= 1
    ensures Values(FromEntries(entries), name) == Values(entries, name)
  {
    var vs := Values(entries, name);
    LastValueIsLastOfValues(entries, name);
    if vs == [] {
      assert LastValue(entries, name) == None;
    } else {
      assert vs == [vs[0]];
      assert LastValue(entries, name) == Some(vs[0]);
    }
  }

  /** The names of the entries, in order. */
  function Names(entries: seq<Pair>): (r: seq<string>)
    ensures |r| == |entries|
    ensures forall i :: 0 <= i < |entries| ==> r[i] == entries[i].0
  {
    if entries == [] then [] else [entries[0].0] + Names(entries[1..])
  }

  predicate DistinctNames(entries: seq<Pair>) {
    forall i, j :: 0 <= i < j < |entries| ==> entries[i].0 != entries[j].0
  }

  lemma {:induction false} LastValueAbsent(entries: seq<Pair>, name: string)
    requires forall i :: 0 <= i < |entries| ==> entries[i].0 != name
    ensures LastValue(entries, name) == None
  {
    if entries != [] {
      LastValueAbsent(entries[..|entries| - 1], name);
    }
  }

  /** An entry that no later entry renames supplies the last value of its name. */
  lemma {:induction false} LastValueAt(entries: seq<Pair>, i: int)
    requires 0 <= i < |entries|
    requires forall j :: i < j < |entries| ==> entries[j].0 != entries[i].0
    ensures LastValue(entries, entries[i].0) == Some(entries[i].1)
  {
    if i < |entries| - 1 {
      var init := entries[..|entries| - 1];
      assert init[i] == entries[i];
      LastValueAt(init, i);
    }
  }

  /** A parameter that no later one renames reaches the object with its own value only. */
  lemma ObjectKeepsLastParam(params: seq<QueryParam>, i: int)
    requires 0 <= i < |params|
    requires forall j :: i < j < |params| ==> params[j].name != params[i].name
    ensures Values(FromEntries(Entries(params)), params[i].name) == [ValueText(params[i].value)]
  {
    var entries := Entries(params);
    LastValueAt(entries, i);
  }

  /** A name no parameter has is absent from the object. */
  lemma ObjectLacksAbsentName(params: seq<QueryParam>, n: string)
    requires forall i :: 0 <= i < |params| ==> params[i].name != n
    ensures Values(FromEntries(Entries(params)), n) == []
  {
    LastValueAbsent(Entries(params), n);
  }

  /** Every parameter that no later one renames reaches the object with its own value only. */
  lemma ObjectKeepsLastParams(params: seq<QueryParam>)
    ensures forall i :: 0 <= i < |params| && (forall j :: i < j < |params| ==> params[j].name != params[i].name) ==>
      Values(FromEntries(Entries(params)), params[i].name) == [ValueText(params[i].value)]
  {
    forall i | 0 <= i < |params| && (forall j :: i < j < |params| ==> params[j].name != params[i].name)
      ensures Values(FromEntries(Entries(params)), params[i].name) == [ValueText(params[i].value)]
    {
      ObjectKeepsLastParam(params, i);
    }
  }

  /** Names no parameter has are absent from the object. */
  lemma ObjectLacksAbsentNames(params: seq<QueryParam>)
    ensures forall n :: (forall i :: 0 <= i < |params| ==> params[i].name != n) ==>
      Values(FromEntries(Entries(params)), n) == []
  {
    forall n | (forall i :: 0 <= i < |params| ==> params[i].name != n)
      ensures Values(FromEntries(Entries(params)), n) == []
    {
      ObjectLacksAbsentName(params, n);
    }
  }

  /** Names the parameters give at most one value reach the object with exactly those values. */
  lemma ObjectKeepsSingleValues(params: seq<QueryParam>)
    ensures forall n :: |Values(Entries(params), n)| <= 1 ==>
      Values(FromEntries(Entries(params)), n) == Values(Entries(params), n)
  {
    forall n | |Values(Entries(params), n)| <= 1
      ensures Values(FromEntries(Entries(params)), n) == Values(Entries(params), n)
    {
      FromEntriesKeepsSingleValues(Entries(params), n);
    }
  }

  /** Entries with distinct names come out of `Object.fromEntries` as they went in: the object
      the page's list becomes holds exactly that list. */
  lemma {:induction false} FromEntriesDistinct(entries: seq<Pair>)
    requires DistinctNames(entries)
    ensures FromEntries(entries) == entries
  {
    if entries != [] {
      var init := entries[..|entries| - 1];
      var last := entries[|entries| - 1];
      DistinctInit(entries);
      FromEntriesDistinct(init);
      LastValueAbsent(init, last.0);
      NewNameAppended(FromEntries(init), last.0, last.1);
      assert init + [last] == entries;
    }
  }

  /** Dropping the last entry keeps the names distinct, and the last name is new to the rest. */
  lemma DistinctInit(entries: seq<Pair>)
    requires entries != [] && DistinctNames(entries)
    ensures DistinctNames(entries[..|entries| - 1])
    ensures forall i :: 0 <= i < |entries| - 1 ==> entries[i].0 != entries[|entries| - 1].0
  {
    var init := entries[..|entries| - 1];
    forall i, j | 0 <= i < j < |init| ensures init[i].0 != init[j].0 {
      assert init[i] == entries[i] && init[j] == entries[j];
    }
  }

  /** Setting a name the list lacks appends it. */
  lemma NewNameAppended(list: seq<Pair>, name: string, value: string)
    requires Values(list, name) == []
    ensures SetPairs(list, name, value) == list + [(name, value)]
  {
  }
}
