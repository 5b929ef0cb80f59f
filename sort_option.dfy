/**
 * The sort selector of the event page: a key (`date`, `title`, `location`)
 * and a direction (`asc`, `desc`), shown in the select as the option value
 * `${sortBy}-${sortOrder}` and read back from a chosen option by splitting it
 * on '-'.
 */
module SortOption {
  import opened Js

  datatype SortKey = ByDate | ByTitle | ByLocation
  datatype SortOrder = Asc | Desc
  datatype SortSpec = SortSpec(key: SortKey, order: SortOrder)

  /** The initial state of `sortBy` and `sortOrder`. */
  const DefaultSpec: SortSpec := SortSpec(ByDate, Asc)

  /** The values of the six options of the select, in the order they are listed. */
  const SortOptionValues: seq<string> :=
    ["date-asc", "date-desc", "title-asc", "title-desc", "location-asc", "location-desc"]

  function KeyName(k: SortKey): string {
    match k
    case ByDate => "date"
    case ByTitle => "title"
    case ByLocation => "location"
  }

  function OrderName(o: SortOrder): string {
    match o
    case Asc => "asc"
    case Desc => "desc"
  }

  function KeyNamed(s: string): (r: Option<SortKey>)
    ensures r.Some? ==> KeyName(r.value) == s
  {
    if s == "date" then Some(ByDate)
    else if s == "title" then Some(ByTitle)
    else if s == "location" then Some(ByLocation)
    else None
  }

  function OrderNamed(s: string): (r: Option<SortOrder>)
    ensures r.Some? ==> OrderName(r.value) == s
  {
    if s == "asc" then Some(Asc) else if s == "desc" then Some(Desc) else None
  }

  /** The select's `value`: `${sortBy}-${sortOrder}`. */
  function Encode(spec: SortSpec): string {
    KeyName(spec.key) + "-" + OrderName(spec.order)
  }

  lemma NamesHaveNoDash(spec: SortSpec)
    ensures '-' !in KeyName(spec.key) && '-' !in OrderName(spec.order)
  {
    match spec.key {
      case ByDate => assert KeyName(spec.key) == ['d', 'a', 't', 'e'];
      case ByTitle => assert KeyName(spec.key) == ['t', 'i', 't', 'l', 'e'];
      case ByLocation => assert KeyName(spec.key) == ['l', 'o', 'c', 'a', 't', 'i', 'o', 'n'];
    }
    match spec.order {
      case Asc => assert OrderName(spec.order) == ['a', 's', 'c'];
      case Desc => assert OrderName(spec.order) == ['d', 'e', 's', 'c'];
    }
  }

  /**
   * `const [newSortBy, newSortOrder] = value.split('-')`: the first two pieces
   * of the value, when they name a key and a direction.
   */
  function Decode(value: string): (r: Option<SortSpec>)
    ensures r.Some? ==> Encode(r.value) <= value
  {
    var parts := Split(value, '-');
    if |parts| >= 2 && KeyNamed(parts[0]).Some? && OrderNamed(parts[1]).Some? then
      JoinPrefix(parts, '-');
      Some(SortSpec(KeyNamed(parts[0]).value, OrderNamed(parts[1]).value))
    else None
  }

  lemma NamedName(spec: SortSpec)
    ensures KeyNamed(KeyName(spec.key)) == Some(spec.key)
    ensures OrderNamed(OrderName(spec.order)) == Some(spec.order)
  {
    match spec.key {
      case ByDate =>
      case ByTitle => assert KeyName(spec.key) != "date";
      case ByLocation => assert KeyName(spec.key) != "date" && KeyName(spec.key) != "title";
    }
    match spec.order {
      case Asc =>
      case Desc => assert OrderName(spec.order) != "asc";
    }
  }

  /** Reading the displayed value back gives the state that produced it. */
  lemma DecodeEncode(spec: SortSpec)
    ensures Decode(Encode(spec)) == Some(spec)
  {
    var parts := [KeyName(spec.key), OrderName(spec.order)];
    NamesHaveNoDash(spec);
    assert parts[1..] == [parts[1]];
    assert Join(parts, '-') == Encode(spec);
    SplitJoin(parts, '-');
    NamedName(spec);
  }

  /** The six options are exactly the encodings of the six states, in the listed order. */
  lemma OptionsAreEncodings()
    ensures SortOptionValues == [
      Encode(SortSpec(ByDate, Asc)), Encode(SortSpec(ByDate, Desc)),
      Encode(SortSpec(ByTitle, Asc)), Encode(SortSpec(ByTitle, Desc)),
      Encode(SortSpec(ByLocation, Asc)), Encode(SortSpec(ByLocation, Desc))]
    ensures forall spec: SortSpec :: Encode(spec) in SortOptionValues
  {
    assert Encode(SortSpec(ByDate, Asc)) == "date-asc";
    assert Encode(SortSpec(ByDate, Desc)) == "date-desc";
    assert Encode(SortSpec(ByTitle, Asc)) == "title-asc";
    assert Encode(SortSpec(ByTitle, Desc)) == "title-desc";
    assert Encode(SortSpec(ByLocation, Asc)) == "location-asc";
    assert Encode(SortSpec(ByLocation, Desc)) == "location-desc";
  }

  /** Choosing any option and displaying the resulting state shows the same option again. */
  lemma OptionRoundTrip(value: string)
    requires value in SortOptionValues
    ensures Decode(value).Some? && Encode(Decode(value).value) == value
  {
    OptionsAreEncodings();
    var spec :| Encode(spec) == value;
    DecodeEncode(spec);
  }

  /** The initial state is displayed as the first option, `date-asc`. */
  lemma DefaultIsFirstOption()
    ensures Encode(DefaultSpec) == SortOptionValues[0] == "date-asc"
  {
    OptionsAreEncodings();
  }
}
