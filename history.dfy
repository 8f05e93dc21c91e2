// The Redis-backed conversation history: one list per lead, keyed by
// `<prefix>:<token>`, entries appended at the end.

module History {
  import opened PyValues
  import opened Records
  import opened RedisLists

  type Lists = map<string, seq<Json>>

  /** The list stored under `key`; a missing key reads as an empty list. */
  function Entries(lists: Lists, key: string): seq<Json>
  {
    if key in lists then lists[key] else []
  }

  /** `lists` after pushing `xs` onto `key` in order (pushing nothing creates no key). */
  function Appended(lists: Lists, key: string, xs: seq<Json>): (r: Lists)
    ensures Entries(r, key) == Entries(lists, key) + xs
    ensures forall k :: k != key ==> Entries(r, k) == Entries(lists, k)
    ensures forall k :: k != key ==> (k in r <==> k in lists)
  {
    if xs == [] then lists else lists[key := Entries(lists, key) + xs]
  }

  /** Two pushes in a row are one push of both sequences. */
  lemma AppendedTwice(lists: Lists, key: string, xs: seq<Json>, ys: seq<Json>)
    ensures Appended(Appended(lists, key, xs), key, ys) == Appended(lists, key, xs + ys)
  {
    if xs == [] {
      assert xs + ys == ys;
    } else if ys == [] {
      assert xs + ys == xs;
    } else {
      assert Entries(lists, key) + xs + ys == Entries(lists, key) + (xs + ys);
    }
  }

  class RedisHistoryProvider {
    const keyPrefix: string
    var lists: Lists

    /** The lite provider: keys `h:<token>`. */
    constructor ()
      ensures keyPrefix == "h" && lists == map[]
    {
      keyPrefix := "h";
      lists := map[];
    }

    /** The assistant provider, with a configurable prefix (default "h"). */
    constructor WithPrefix(prefix: string)
      ensures keyPrefix == prefix && lists == map[]
    {
      keyPrefix := prefix;
      lists := map[];
    }

    function Key(lead: ChatLead): (k: string)
      ensures k == keyPrefix + ":" + lead.Token()
    {
      keyPrefix + ":" + lead.Token()
    }

    function EntriesOf(lead: ChatLead): seq<Json>
      reads this
    {
      Entries(lists, Key(lead))
    }

    /** `RPUSH`: the entry goes to the end of this lead's list; no other list changes. */
    method AppendToHistory(lead: ChatLead, entry: Json)
      modifies this
      ensures lists == Appended(old(lists), Key(lead), [entry])
    {
      lists := lists[Key(lead) := EntriesOf(lead) + [entry]];
    }

    /** The whole list with falsy entries (null, empty dict, ...) dropped. */
    function GetHistory(lead: ChatLead): (r: seq<Json>)
      reads this
      ensures forall i :: 0 <= i < |r| ==> Truthy(r[i])
      ensures (forall i :: 0 <= i < |EntriesOf(lead)| ==> Truthy(EntriesOf(lead)[i])) ==> r == EntriesOf(lead)
      ensures r == FilterTruthy(EntriesOf(lead))
    {
      var all := LRange(EntriesOf(lead), 0, -1);
      LRangeAll(EntriesOf(lead));
      FilterTruthyOfTruthyWhen(all);
      FilterTruthy(all)
    }

    /**
     * With a truthy `keep`, `LTRIM key 0 keep` (the first `keep + 1` entries
     * stay); otherwise (None or 0) the list is deleted.
     */
    method ClearHistory(lead: ChatLead, keep: Option<int>)
      modifies this
      ensures keep.Some? && keep.value != 0 && LRange(old(EntriesOf(lead)), 0, keep.value) != [] ==>
        lists == old(lists)[Key(lead) := LRange(old(EntriesOf(lead)), 0, keep.value)]
      ensures (keep.None? || keep.value == 0 || LRange(old(EntriesOf(lead)), 0, keep.value) == []) ==>
        lists == old(lists) - {Key(lead)}
    {
      var key := Key(lead);
      if keep.Some? && keep.value != 0 {
        var kept := LRange(EntriesOf(lead), 0, keep.value);
        if kept == [] {
          lists := lists - {key};
        } else {
          lists := lists[key := kept];
        }
      } else {
        lists := lists - {key};
      }
    }

    /** `LRANGE key start end`, entries unfiltered. */
    function GetHistorySlice(lead: ChatLead, start: int, end: int): (r: seq<Json>)
      reads this
      ensures exists i, j :: 0 <= i <= j <= |EntriesOf(lead)| && r == EntriesOf(lead)[i..j]
    {
      LRange(EntriesOf(lead), start, end)
    }

    /** `LRANGE key -count -1`: the newest `count` entries, unfiltered. */
    function GetLastMessages(lead: ChatLead, count: int): (r: seq<Json>)
      reads this
      ensures count > 0 ==> r == EntriesOf(lead)[|EntriesOf(lead)| - Min(count, |EntriesOf(lead)|)..]
      ensures count == 0 ==> r == EntriesOf(lead)
    {
      LastElements(EntriesOf(lead), count);
      LRange(EntriesOf(lead), -count, -1)
    }

    /** Closing a conversation is not implemented by this store. */
    method CloseConversation(lead: ChatLead) returns (err: PyError)
      ensures err == NotImplementedError
    {
      err := NotImplementedError;
    }
  }

  lemma FilterTruthyOfTruthyWhen(xs: seq<Json>)
    ensures (forall i :: 0 <= i < |xs| ==> Truthy(xs[i])) ==> FilterTruthy(xs) == xs
  {
    if forall i :: 0 <= i < |xs| ==> Truthy(xs[i]) {
      FilterTruthyOfTruthy(xs);
    }
  }

  /** Different leads' histories never share a key. */
  lemma KeysSeparateLeads(p: RedisHistoryProvider, a: ChatLead, b: ChatLead)
    requires a.Token() != b.Token()
    ensures p.Key(a) != p.Key(b)
  {
    var n := |p.keyPrefix| + 1;
    assert p.Key(a)[n..] == a.Token();
    assert p.Key(b)[n..] == b.Token();
  }

  /** An entry appended after `xs` is the newest message the window shows. */
  lemma {:induction false} AppendedIsNewest(xs: seq<Json>, entry: Json, count: int)
    requires count > 0
    ensures LRange(xs + [entry], -count, -1)[|LRange(xs + [entry], -count, -1)| - 1] == entry
  {
    LastElements(xs + [entry], count);
  }

  /** An appended truthy entry shows up at the end of `get_history`. */
  lemma AppendTruthyShowsInHistory(xs: seq<Json>, entry: Json)
    requires Truthy(entry)
    ensures FilterTruthy(xs + [entry]) == FilterTruthy(xs) + [entry]
  {
    FilterTruthyAppend(xs, entry);
  }
}
