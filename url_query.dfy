/** `parseUrlQuery`: the redirect callback's query string as a flat
    dictionary (packages/guard-core-v6/src/index.tsx, parseUrlQuery). */
module UrlQuery {
  import opened Wrappers
  import opened JsValues
  import opened JsStrings

  /** The parts of `window.location` the core reads. `search` is `None` when
      reading it throws, which is the only case in which the hash is used. */
  datatype Location = Location(search: Option<string>, hash: string, origin: string)

  /** A parsed query: an item without `=` maps its key to `undefined`. */
  type Query = map<string, Option<string>>

  /** `location.search.split('?')[1]`, or `location.hash.split('#')[1]` when
      reading the search string throws. `None` is `undefined`. */
  function QueryString(loc: Location): (r: Option<string>)
    ensures loc.search.Some? ==> r == Nth(Split(loc.search.value, '?'), 1)
    ensures loc.search.None? ==> r == Nth(Split(loc.hash, '#'), 1)
  {
    match loc.search
    case Some(search) => Nth(Split(search, '?'), 1)
    case None => Nth(Split(loc.hash, '#'), 1)
  }

  /** The `&`-separated items of the query string (none when it is falsy). */
  function Items(loc: Location): seq<string> {
    var qs := QueryString(loc);
    if Truthy(qs) then Split(qs.value, '&') else []
  }

  /** `const [key, value] = item.split('=')`: the text before the first `=`. */
  function KeyOf(item: string): string {
    Split(item, '=')[0]
  }

  /** ... and the text between the first and the second `=`, if any. */
  function ValueOf(item: string): Option<string> {
    Nth(Split(item, '='), 1)
  }

  /** No item after `j` and before `n` has the same key as item `j`. */
  ghost predicate LastWithKey(items: seq<string>, j: int, n: int)
    requires 0 <= j < n <= |items|
  {
    forall j' :: j < j' < n ==> KeyOf(items[j']) != KeyOf(items[j])
  }

  /** The one key a plain object literal does not store: assigning a string
      or `undefined` to `query['__proto__']` goes to the prototype setter,
      which ignores such a value. */
  const ProtoKey := "__proto__"

  /** `query[key] = value` on the object literal `query`. */
  function Assign(query: Query, key: string, value: Option<string>): Query {
    if key == ProtoKey then query else query[key := value]
  }

  /** The dictionary the `forEach` leaves behind after the given items:
      `query[key] = value` for each item in turn. */
  function QueryOf(items: seq<string>): Query {
    if |items| == 0 then map[]
    else Assign(QueryOf(items[..|items| - 1]), KeyOf(items[|items| - 1]), ValueOf(items[|items| - 1]))
  }

  /** The keys of the query are exactly the keys of the items, except
      `__proto__`. */
  lemma {:induction false} QueryOfKeys(items: seq<string>)
    ensures forall k :: k in QueryOf(items) <==> k != ProtoKey && exists j :: 0 <= j < |items| && KeyOf(items[j]) == k
    decreases |items|
  {
    if |items| > 0 {
      var n := |items| - 1;
      QueryOfKeys(items[..n]);
      assert QueryOf(items) == Assign(QueryOf(items[..n]), KeyOf(items[n]), ValueOf(items[n]));
      forall k | k in QueryOf(items) ensures k != ProtoKey && exists j :: 0 <= j < |items| && KeyOf(items[j]) == k {
        if k != KeyOf(items[n]) {
          var j :| 0 <= j < n && KeyOf(items[..n][j]) == k;
          assert items[..n][j] == items[j];
        }
      }
      forall k | k != ProtoKey && exists j :: 0 <= j < |items| && KeyOf(items[j]) == k ensures k in QueryOf(items) {
        var j :| 0 <= j < |items| && KeyOf(items[j]) == k;
        if j < n {
          assert items[..n][j] == items[j];
        }
      }
    }
  }

  /** Each key other than `__proto__` maps to the value of the last item
      with that key: a later duplicate overwrites an earlier one. */
  lemma {:induction false} QueryOfLastWins(items: seq<string>, j: int)
    requires 0 <= j < |items| && LastWithKey(items, j, |items|) && KeyOf(items[j]) != ProtoKey
    ensures KeyOf(items[j]) in QueryOf(items) && QueryOf(items)[KeyOf(items[j])] == ValueOf(items[j])
    decreases |items|
  {
    var n := |items| - 1;
    if j < n {
      assert KeyOf(items[n]) != KeyOf(items[j]);
      var prefix := items[..n];
      assert prefix[j] == items[j];
      forall j' | j < j' < n ensures KeyOf(prefix[j']) != KeyOf(prefix[j]) {
        assert prefix[j'] == items[j'];
      }
      QueryOfLastWins(prefix, j);
    }
  }

  /** `parseUrlQuery()`. An absent or empty query string gives the empty
      dictionary. Otherwise the keys are exactly the items' keys other than
      `__proto__`, and each maps to the value of its last item. */
  method ParseUrlQuery(loc: Location) returns (query: Query)
    ensures query == QueryOf(Items(loc))
    ensures !Truthy(QueryString(loc)) ==> query == map[]
    ensures forall k :: k in query <==> k != ProtoKey && exists j :: 0 <= j < |Items(loc)| && KeyOf(Items(loc)[j]) == k
    ensures ProtoKey !in query
    ensures forall j :: 0 <= j < |Items(loc)| && LastWithKey(Items(loc), j, |Items(loc)|) && KeyOf(Items(loc)[j]) != ProtoKey ==>
      KeyOf(Items(loc)[j]) in query && query[KeyOf(Items(loc)[j])] == ValueOf(Items(loc)[j])
  {
    query := map[];
    var queryString := QueryString(loc);
    if !Truthy(queryString) {
      return;
    }
    var items := Split(queryString.value, '&');
    var i := 0;
    while i < |items|
      invariant 0 <= i <= |items|
      invariant query == QueryOf(items[..i])
    {
      var parts := Split(items[i], '=');
      if parts[0] != ProtoKey {
        query := query[parts[0] := Nth(parts, 1)];
      }
      i := i + 1;
      assert items[..i][..i - 1] == items[..i - 1];
    }
    assert items[..i] == items == Items(loc);
    QueryOfKeys(items);
    forall j | 0 <= j < |items| && LastWithKey(items, j, |items|) && KeyOf(items[j]) != ProtoKey
      ensures KeyOf(items[j]) in query && query[KeyOf(items[j])] == ValueOf(items[j])
    {
      QueryOfLastWins(items, j);
    }
  }

  /** A key is never followed by `=` inside itself: it is the text before the
      first `=` of some item. */
  lemma KeyBeforeFirstEquals(item: string)
    ensures '=' !in KeyOf(item)
    ensures KeyOf(item) == item || (|KeyOf(item)| < |item| && item[..|KeyOf(item)|] == KeyOf(item) && item[|KeyOf(item)|] == '=')
  {
    FirstPieceIsPrefix(item, '=');
  }

  /** A search string without a `?`, such as the empty one, has no query. */
  lemma NoQuestionMarkNoQuery(loc: Location)
    requires loc.search.Some? && '?' !in loc.search.value
    ensures Items(loc) == []
  {
    SplitNoSeparator(loc.search.value, '?');
  }

  /** An item `key=value` with `=`-free halves parses back into exactly
      that key and that value. */
  lemma ItemRoundTrip(key: string, value: string)
    requires '=' !in key && '=' !in value
    ensures KeyOf(key + "=" + value) == key
    ensures ValueOf(key + "=" + value) == Some(value)
  {
    assert key + "=" + value == key + ['='] + value;
    SplitAfterPiece(key, value, '=');
    SplitNoSeparator(value, '=');
  }

  /** An item without `=` is a key whose value is `undefined`. */
  lemma ItemWithoutEquals(item: string)
    requires '=' !in item
    ensures KeyOf(item) == item && ValueOf(item) == None
  {
    SplitNoSeparator(item, '=');
  }

  /** For a search string `?rest` with no further `?`, the items are the
      `&`-separated pieces of `rest`, and there are none when `rest` is empty. */
  lemma SearchItems(loc: Location, rest: string)
    requires loc.search == Some("?" + rest) && '?' !in rest
    ensures Items(loc) == if rest == "" then [] else Split(rest, '&')
  {
    assert "?" + rest == "" + ['?'] + rest;
    SplitAfterPiece("", rest, '?');
    SplitNoSeparator(rest, '?');
    assert Split(loc.search.value, '?') == ["", rest];
  }

  /** The redirect callback `?code=C` yields the code `C`, whatever it is,
      as long as it holds none of the separators. */
  lemma CallbackCode(loc: Location, code: string)
    requires loc.search == Some("?code=" + code)
    requires '?' !in code && '&' !in code && '=' !in code
    ensures CodeOf(QueryOf(Items(loc))) == code
  {
    var item := "code=" + code;
    assert "?code=" + code == "?" + item;
    assert item == "code" + "=" + code;
    assert '?' !in item && '&' !in item by {
      assert forall i :: 0 <= i < |item| ==> item[i] == (if i < 5 then "code="[i] else code[i - 5]);
    }
    SearchItems(loc, item);
    SplitNoSeparator(item, '&');
    assert Items(loc) == [item];
    ItemRoundTrip("code", code);
    assert QueryOf([item]) == Assign(QueryOf([item][..0]), KeyOf(item), ValueOf(item));
  }

  /** `{ code = '' } = query`: a missing or `undefined` code is `''`. */
  function CodeOf(query: Query): (code: string)
    ensures "code" in query && query["code"].Some? ==> code == query["code"].value
    ensures !("code" in query && query["code"].Some?) ==> code == ""
  {
    if "code" in query && query["code"].Some? then query["code"].value else ""
  }
}
