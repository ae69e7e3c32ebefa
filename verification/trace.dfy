/** The parsing of the Cloudflare trace body into an object (each line is
    split at `=` and the resulting pairs are handed to `Object.fromEntries`),
    and the optional-chained reads `trace?.ip` and `trace?.loc`. */
module Trace {
  import opened Js
  import opened Text

  /** The object `Object.fromEntries` builds: each key maps to the second
      element of its entry, which is `undefined` (here `None`) when the line
      held no `=`. */
  type TraceMap = map<string, Option<string>>

  /** One entry `[key, value]`. */
  datatype Entry = Entry(key: string, value: Option<string>)

  /** `l.split("=")` read as an entry: `Object.fromEntries` takes element 0 as
      the key and element 1 as the value. The key is the text before the
      first `=`; the value is the text between the first and the second `=`,
      or absent when the line has no `=`. */
  function EntryOf(line: string): (e: Entry)
    ensures '=' !in e.key
    ensures '=' !in line ==> e == Entry(line, None)
    ensures '=' in line ==>
              && e.value.Some?
              && '=' !in e.value.value
              && (line == e.key + "=" + e.value.value
                  || StartsWith(line, e.key + "=" + e.value.value + "="))
  {
    var parts := Split(line, '=');
    SplitCount(line, '=');
    if |parts| >= 2 then
      JoinHead(parts, "=");
      Entry(parts[0], Some(parts[1]))
    else
      Entry(parts[0], None)
  }

  /** `entries[i]` is the last entry with its key. */
  ghost predicate LastWithKey(entries: seq<Entry>, i: int) {
    0 <= i < |entries| && forall j :: i < j < |entries| ==> entries[j].key != entries[i].key
  }

  /** The keys of `m` are the keys of the entries. */
  ghost predicate SameKeys(entries: seq<Entry>, m: TraceMap) {
    forall k :: k in m <==> exists i :: 0 <= i < |entries| && entries[i].key == k
  }

  /** Every key holds the value of its last entry. */
  ghost predicate LastWins(entries: seq<Entry>, m: TraceMap) {
    forall i :: LastWithKey(entries, i) ==> entries[i].key in m && m[entries[i].key] == entries[i].value
  }

  /** Storing one more entry keeps both properties. */
  lemma StoreEntry(entries: seq<Entry>, m: TraceMap)
    requires |entries| > 0
    requires SameKeys(entries[..|entries| - 1], m) && LastWins(entries[..|entries| - 1], m)
    ensures var last := entries[|entries| - 1];
            SameKeys(entries, m[last.key := last.value]) && LastWins(entries, m[last.key := last.value])
  {
    var n := |entries| - 1;
    var prefix := entries[..n];
    var last := entries[n];
    var m' := m[last.key := last.value];
    forall k
      ensures k in m' <==> exists i :: 0 <= i < |entries| && entries[i].key == k
    {
      if k in m && k != last.key {
        var i :| 0 <= i < |prefix| && prefix[i].key == k;
        assert entries[i].key == k;
      }
      if k != last.key && exists i :: 0 <= i < |entries| && entries[i].key == k {
        var i :| 0 <= i < |entries| && entries[i].key == k;
        assert i < n && prefix[i].key == k;
      }
    }
    forall i | LastWithKey(entries, i)
      ensures entries[i].key in m' && m'[entries[i].key] == entries[i].value
    {
      if i < n {
        assert entries[n].key != entries[i].key;
        assert LastWithKey(prefix, i);
      }
    }
  }

  /** `Object.fromEntries(entries)`: entries are stored in order, so a later
      entry overwrites an earlier one with the same key. */
  function FromEntries(entries: seq<Entry>): (m: TraceMap)
    ensures SameKeys(entries, m)
    ensures LastWins(entries, m)
    decreases |entries|
  {
    if |entries| == 0 then map[]
    else
      var n := |entries| - 1;
      var m := FromEntries(entries[..n]);
      StoreEntry(entries, m);
      m[entries[n].key := entries[n].value]
  }

  /** The trace body as `fromEntries` sees it: one entry per line. */
  function Entries(body: string): (es: seq<Entry>)
    ensures |es| == |Split(body, '\n')|
    ensures forall i :: 0 <= i < |es| ==> es[i] == EntryOf(Split(body, '\n')[i])
  {
    var lines := Split(body, '\n');
    seq(|lines|, i requires 0 <= i < |lines| => EntryOf(lines[i]))
  }

  /** The resolved value of `tracePromise` for a fetched body. */
  function Parse(body: string): TraceMap {
    FromEntries(Entries(body))
  }

  /** A key is present exactly when some line starts with it (up to its
      first `=`), and it holds what the last such line gives it. */
  lemma ParseLastLineWins(body: string, i: int)
    requires LastWithKey(Entries(body), i)
    ensures var e := EntryOf(Split(body, '\n')[i]);
            e.key in Parse(body) && Parse(body)[e.key] == e.value
  {
  }

  /** `trace?.[key]` on the value of `tracePromise`, for a key that
      `Object.prototype` does not carry (the script reads `ip` and `loc`):
      `undefined` when the fetch failed (`.catch(() => {})` yields
      `undefined`), for a missing key or for a line without `=`, and the
      line's text otherwise. */
  function Lookup(trace: Option<TraceMap>, key: string): (v: Value)
    ensures v.Undefined? || v.Str?
    ensures trace.None? ==> v == Undefined
    ensures v.Str? <==> trace.Some? && key in trace.value && trace.value[key].Some?
    ensures v.Str? ==> v.s == trace.value[key].value
  {
    match trace
    case None => Undefined
    case Some(m) =>
      if key in m && m[key].Some? then Str(m[key].value) else Undefined
  }

  /** A line `key=value` without further `=` splits into that key and value. */
  lemma EntryOfPair(key: string, value: string)
    requires '=' !in key && '=' !in value
    ensures EntryOf(key + "=" + value) == Entry(key, Some(value))
  {
    assert Join([key, value], "=") == key + "=" + value by {
      assert [key, value][1..] == [value];
    }
    SplitOfJoin([key, value], '=');
  }
}
