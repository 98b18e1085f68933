/**
 * The searchable option picker (src/components/ModalSelector.tsx): the list
 * of options narrowed by a case-insensitive search, the highlighting of the
 * selected option, and what a click on an option calls back.
 */
module ModalSelector {
  import opened Wrappers
  import opened Text

  /** One choice offered by the picker: its `label` (what is shown) and its `value` (what is reported). */
  datatype SelectOption = SelectOption(labelText: string, value: string)

  /** One shown line: an option and whether it is drawn as the selected one. */
  datatype Row = Row(option: SelectOption, highlighted: bool)

  /** The callbacks the picker calls, in the order it calls them. */
  datatype Callback = OnSelect(value: string) | OnClose

  /** The option's lowercased label contains the lowercased query. */
  predicate Matches(option: SelectOption, query: string) {
    Contains(Lower(option.labelText), Lower(query))
  }

  /** `a` is `b` with some elements left out, the rest in their order. */
  predicate IsSubsequence<T(==)>(a: seq<T>, b: seq<T>)
    decreases |b|
  {
    if b == [] then a == []
    else IsSubsequence(a, b[1..]) || (a != [] && a[0] == b[0] && IsSubsequence(a[1..], b[1..]))
  }

  /**
   * `filtered`: the options whose label matches the query, in their order;
   * an option is kept exactly when it matches.
   */
  function Filtered(options: seq<SelectOption>, query: string): (r: seq<SelectOption>)
    ensures IsSubsequence(r, options)
    ensures forall o :: o in r <==> o in options && Matches(o, query)
    ensures forall o :: multiset(r)[o] == if Matches(o, query) then multiset(options)[o] else 0
  {
    if options == [] then []
    else
      var rest := Filtered(options[1..], query);
      assert options == [options[0]] + options[1..];
      if Matches(options[0], query) then
        assert ([options[0]] + rest)[1..] == rest;
        [options[0]] + rest
      else rest
  }

  /** The empty string occurs in every string. */
  lemma ContainsEmpty(s: string)
    ensures Contains(s, "")
  {
    assert OccursAt(s, "", 0);
  }

  /** An empty search keeps every option. */
  lemma {:induction false} FilteredEmptyQuery(options: seq<SelectOption>)
    ensures Filtered(options, "") == options
  {
    if options != [] {
      ContainsEmpty(Lower(options[0].labelText));
      FilteredEmptyQuery(options[1..]);
    }
  }

  /** Two queries with the same lowercase form keep the same options. */
  lemma {:induction false} FilteredByLowerQuery(options: seq<SelectOption>, q1: string, q2: string)
    requires Lower(q1) == Lower(q2)
    ensures Filtered(options, q1) == Filtered(options, q2)
  {
    if options != [] {
      FilteredByLowerQuery(options[1..], q1, q2);
    }
  }

  /** Upper-casing or lower-casing a query (in ASCII) leaves its lowercase form as it is. */
  lemma LowerOfCaseChange(q: string)
    ensures Lower(Upper(q)) == Lower(q) && Lower(Lower(q)) == Lower(q)
  {
  }

  /** The search ignores the case of the query: its upper- and lowercased forms keep the same options. */
  lemma FilteredCaseInsensitive(options: seq<SelectOption>, query: string)
    ensures Filtered(options, Upper(query)) == Filtered(options, query)
    ensures Filtered(options, Lower(query)) == Filtered(options, query)
  {
    LowerOfCaseChange(query);
    FilteredByLowerQuery(options, Upper(query), query);
    FilteredByLowerQuery(options, Lower(query), query);
  }

  /** `selected === opt.value`; nothing is highlighted while `selected` is undefined. */
  predicate IsHighlighted(option: SelectOption, selected: Option<string>) {
    selected == Some(option.value)
  }

  /**
   * The list the picker shows: one row per kept option, in order, highlighted
   * exactly when its value is the selected one.
   */
  function Rows(options: seq<SelectOption>, query: string, selected: Option<string>): (rows: seq<Row>)
    ensures |rows| == |Filtered(options, query)|
    ensures forall i | 0 <= i < |rows| ::
      rows[i].option == Filtered(options, query)[i]
      && (rows[i].highlighted <==> selected == Some(rows[i].option.value))
  {
    var shown := Filtered(options, query);
    seq(|shown|, i requires 0 <= i < |shown| => Row(shown[i], IsHighlighted(shown[i], selected)))
  }

  /** A click on a shown row: `onSelect` with the value of the row's option, then `onClose`. */
  function ClickRow(rows: seq<Row>, i: nat): seq<Callback>
    requires i < |rows|
  {
    [OnSelect(rows[i].option.value), OnClose]
  }

  /** The close button in the header only calls `onClose`. */
  function ClickClose(): seq<Callback> {
    [OnClose]
  }

  /** Closing from the header reports no selection: no `onSelect` is called. */
  lemma ClickCloseSelectsNothing()
    ensures forall c | c in ClickClose() :: !c.OnSelect?
  {
  }

  /**
   * A click on a shown row reports the value of the option on that row, and
   * then closes the picker, with no other callback; that option was offered
   * and matches the search.
   */
  lemma ClickSelectsMatchingOption(options: seq<SelectOption>, query: string, selected: Option<string>, i: nat)
    requires i < |Rows(options, query, selected)|
    ensures ClickRow(Rows(options, query, selected), i) == [OnSelect(Filtered(options, query)[i].value), OnClose]
    ensures var calls := ClickRow(Rows(options, query, selected), i);
      && |calls| == 2 && calls[1] == OnClose
      && calls[0].OnSelect?
      && exists o :: o in options && Matches(o, query) && o.value == calls[0].value
  {
    var o := Filtered(options, query)[i];
    assert o in Filtered(options, query);
  }
}
