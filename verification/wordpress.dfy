/**
  The WordPress / WooCommerce services the gateway calls, reduced to pure
  functions: the post-meta store (`update_post_meta`, `get_post_meta`),
  `apply_filters` over an ordered list of callbacks, and the checkout
  notice queue (`wc_add_notice`).
 */
module WordPress {

  datatype Option<T> = None | Some(value: T)

  /** The metadata attached to one post (a WooCommerce order is a post). */
  type PostMeta = map<string, string>

  /** One `$key => $value` pair of a PHP array, in array order. */
  type MetaEntry = (string, string)

  /** `get_post_meta($id, $key, true)`, with an absent key kept distinct. */
  function GetPostMeta(meta: PostMeta, key: string): (r: Option<string>)
    ensures r.Some? <==> key in meta
    ensures r.Some? ==> r.value == meta[key]
  {
    if key in meta then Some(meta[key]) else None
  }

  /** `update_post_meta($id, $key, $value)`: adds or overwrites one key. */
  function UpdatePostMeta(meta: PostMeta, key: string, value: string): (r: PostMeta)
    ensures r.Keys == meta.Keys + {key}
    ensures r[key] == value
    ensures forall k :: k in meta && k != key ==> r[k] == meta[k]
  {
    meta[key := value]
  }

  /** The keys an ordered list of entries writes. */
  function KeysOf(entries: seq<MetaEntry>): (ks: set<string>)
    ensures forall i :: 0 <= i < |entries| ==> entries[i].0 in ks
    ensures forall k :: k in ks ==> exists i :: 0 <= i < |entries| && entries[i].0 == k
  {
    set i | 0 <= i < |entries| :: entries[i].0
  }

  /** No later entry writes the same key as entry `i`. */
  predicate WrittenLast(entries: seq<MetaEntry>, i: int)
    requires 0 <= i < |entries|
  {
    forall j :: i < j < |entries| ==> entries[j].0 != entries[i].0
  }

  /** A `foreach` over `entries` calling `update_post_meta` once per entry:
      the written keys are added, the last write of a key wins, and every
      other key keeps its value. */
  function UpdateEach(meta: PostMeta, entries: seq<MetaEntry>): (r: PostMeta)
    ensures r.Keys == meta.Keys + KeysOf(entries)
    ensures forall k :: k in meta && k !in KeysOf(entries) ==> r[k] == meta[k]
    ensures forall i :: 0 <= i < |entries| && WrittenLast(entries, i) ==> r[entries[i].0] == entries[i].1
    decreases |entries|
  {
    if |entries| == 0 then meta
    else
      var tail := entries[1..];
      var r := UpdateEach(UpdatePostMeta(meta, entries[0].0, entries[0].1), tail);
      KeysOfCons(entries);
      assert forall i :: 1 <= i < |entries| ==> entries[i] == tail[i - 1];
      assert forall i :: 1 <= i < |entries| && WrittenLast(entries, i) ==> WrittenLast(tail, i - 1);
      assert WrittenLast(entries, 0) ==> entries[0].0 !in KeysOf(tail);
      r
  }

  /** The keys of a non-empty list are its first key and the keys of the rest. */
  lemma KeysOfCons(entries: seq<MetaEntry>)
    requires |entries| > 0
    ensures KeysOf(entries) == {entries[0].0} + KeysOf(entries[1..])
  {
    var tail := entries[1..];
    forall k | k in KeysOf(entries) ensures k in {entries[0].0} + KeysOf(tail) {
      var i :| 0 <= i < |entries| && entries[i].0 == k;
      if i > 0 { assert tail[i - 1].0 == k; }
    }
  }

  /** A callback registered on a filter hook: it receives the value being
      filtered and one extra argument, and returns the filtered value. */
  type Filter<!V, -C> = (V, C) -> V

  /** `apply_filters($hook, $value, $context)` with the hook's callbacks in
      the order WordPress runs them. */
  function ApplyFilters<V, C>(value: V, context: C, filters: seq<Filter<V, C>>): (r: V)
    ensures |filters| == 0 ==> r == value
    ensures |filters| > 0 ==> r == filters[|filters| - 1](ApplyFilters(value, context, filters[..|filters| - 1]), context)
    decreases |filters|
  {
    if |filters| == 0 then value
    else
      var tail := filters[1..];
      assert |tail| > 0 ==> tail[..|tail| - 1] == filters[..|filters| - 1][1..];
      assert |tail| > 0 ==> tail[|tail| - 1] == filters[|filters| - 1];
      ApplyFilters(filters[0](value, context), context, tail)
  }

  /** Running two lists of callbacks one after the other is running their concatenation. */
  lemma {:induction false} ApplyFiltersAppend<V, C>(value: V, context: C, xs: seq<Filter<V, C>>, ys: seq<Filter<V, C>>)
    ensures ApplyFilters(value, context, xs + ys) == ApplyFilters(ApplyFilters(value, context, xs), context, ys)
    decreases |xs|
  {
    if |xs| == 0 {
      assert xs + ys == ys;
    } else {
      assert (xs + ys)[1..] == xs[1..] + ys;
      ApplyFiltersAppend(xs[0](value, context), context, xs[1..], ys);
    }
  }

  /** A callback that returns its argument unchanged can be added anywhere
      in the chain without changing the filtered value. */
  lemma IdentityFilterIsNeutral<V, C>(value: V, context: C, identity: Filter<V, C>, before: seq<Filter<V, C>>, after: seq<Filter<V, C>>)
    requires forall v, c :: identity(v, c) == v
    ensures ApplyFilters(value, context, before + [identity] + after) == ApplyFilters(value, context, before + after)
  {
    var mid := ApplyFilters(value, context, before);
    ApplyFiltersAppend(value, context, before + [identity], after);
    ApplyFiltersAppend(value, context, before, [identity]);
    ApplyFiltersAppend(value, context, before, after);
    assert ApplyFilters(mid, context, [identity]) == ApplyFilters(identity(mid, context), context, []);
  }

  /** The kinds of checkout notice `wc_add_notice` accepts. */
  datatype NoticeType = Success | Error | Info

  datatype Notice = Notice(message: string, kind: NoticeType)

  /** `wc_add_notice($message, $kind)`: appends one notice to the session queue. */
  function AddNotice(notices: seq<Notice>, message: string, kind: NoticeType): (r: seq<Notice>)
    ensures |r| == |notices| + 1
    ensures r[..|notices|] == notices
    ensures r[|notices|] == Notice(message, kind)
  {
    notices + [Notice(message, kind)]
  }
}
