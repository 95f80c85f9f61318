/**
  `format_json_items` of scripts/generate-diff-documentation.py: every change
  item is copied into a display item holding only the whitelisted keys, in
  whitelist order. Items are JSON objects; a display item is an ordered
  list of (key, value) pairs, since a Python dict keeps insertion order.
  The final `json.dumps` is not modelled.
*/
module ReportJsonItems {
  import opened Sequences

  /** The keys shown for a change item, in the order they are shown. */
  const DisplayKeys: seq<string> :=
    ["id", "key", "section", "type", "label", "value", "old_value", "new_value", "description"]

  function KeysOf<V>(pairs: seq<(string, V)>): (keys: seq<string>)
    ensures |keys| == |pairs|
    ensures forall j :: 0 <= j < |pairs| ==> keys[j] == pairs[j].0
  {
    if pairs == [] then [] else KeysOf(pairs[..|pairs| - 1]) + [pairs[|pairs| - 1].0]
  }

  /** Whether a key is present in `item`. */
  function InItem<V>(item: map<string, V>): string -> bool
  {
    k => k in item
  }

  /** The pairs `(k, item[k])` for the keys `k` of `keys` present in `item`. */
  function Project<V>(item: map<string, V>, keys: seq<string>): (pairs: seq<(string, V)>)
    ensures KeysOf(pairs) == Filter(keys, InItem(item))
    ensures forall j :: 0 <= j < |pairs| ==> pairs[j].0 in item && pairs[j].1 == item[pairs[j].0]
  {
    if keys == [] then []
    else
      var front := Project(item, keys[..|keys| - 1]);
      var k := keys[|keys| - 1];
      if k in item then
        assert KeysOf(front + [(k, item[k])]) == KeysOf(front) + [k] by {
          assert (front + [(k, item[k])])[..|front|] == front;
        }
        front + [(k, item[k])]
      else front
  }

  /** No key is whitelisted twice: the keys start with different letters. */
  lemma {:induction false} DisplayKeysDistinct()
    ensures NoDups(DisplayKeys)
  {
    forall i, j | 0 <= i < j < |DisplayKeys|
      ensures DisplayKeys[i] != DisplayKeys[j]
    {
      assert DisplayKeys[i][0] != DisplayKeys[j][0];
    }
  }

  /** A display item is the projection of its item onto the whitelist: its keys
      are exactly the whitelisted keys the item has, in whitelist order, each
      with the item's value, and nothing else. */
  lemma {:induction false} DisplayItemKeys<V>(item: map<string, V>)
    ensures var pairs := Project(item, DisplayKeys);
      && NoDups(KeysOf(pairs))
      && (forall k :: k in KeysOf(pairs) <==> k in DisplayKeys && k in item)
      && IsSubseq(KeysOf(pairs), DisplayKeys)
      && (forall j :: 0 <= j < |pairs| ==> pairs[j].1 == item[pairs[j].0])
  {
    var keys := KeysOf(Project(item, DisplayKeys));
    FilterMembers(DisplayKeys, InItem(item));
    FilterSubseq(DisplayKeys, InItem(item));
    DisplayKeysDistinct();
    SubseqOfDistinct(keys, DisplayKeys);
  }

  /** `format_json_items` up to the final serialisation: one display item per
      item, in order, built key by key. */
  method FormatJsonItems<V>(items: seq<map<string, V>>) returns (display: seq<seq<(string, V)>>)
    ensures |display| == |items|
    ensures forall i :: 0 <= i < |items| ==> display[i] == Project(items[i], DisplayKeys)
  {
    display := [];
    for i := 0 to |items|
      invariant |display| == i
      invariant forall n :: 0 <= n < i ==> display[n] == Project(items[n], DisplayKeys)
    {
      var item := items[i];
      var displayItem: seq<(string, V)> := [];
      for k := 0 to |DisplayKeys|
        invariant displayItem == Project(item, DisplayKeys[..k])
      {
        var key := DisplayKeys[k];
        ghost var keys := DisplayKeys[..k + 1];
        assert keys[..k] == DisplayKeys[..k] && keys[k] == key;
        if key in item {
          displayItem := displayItem + [(key, item[key])];
        }
        assert displayItem == Project(item, keys);
      }
      assert DisplayKeys[..|DisplayKeys|] == DisplayKeys;
      display := display + [displayItem];
    }
  }
}
