/**
 * The call-record chain of a profiling session (`ProfilerData` in
 * albumentations/profiling.py).
 *
 * A record's name, duration and predecessor never change after construction,
 * so they are `const` fields. The predecessors of a record, newest first, are
 * kept in the ghost constant `chain`; `Wf()` ties it to the `profileData` links.
 * What changes is the results cache and the four timing statistics, which the
 * source initialises to NaN (`None` here) and `ProcessResults` overwrites.
 */
module CallRecords {
  import opened Wrappers

  /** What the source raises while processing results. */
  datatype ProcessingError =
    | NoneHasNoAttribute  // `data._total_time = ...` on `data = None`

  class ProfilerData {
    const name: string
    const dt: int
    const profileData: ProfilerData?
    /** The predecessors of this record, newest first, ending with the oldest record. */
    ghost const chain: seq<ProfilerData>
    /** The same records as a set: the objects processing the results may write to. */
    ghost const repr: set<ProfilerData>

    /** `_results`: `None` until the chain has been processed once. */
    var results: Option<map<string, seq<ProfilerData>>>
    /** `_total_time`, `_min_time`, `_max_time`, `_avg_time`; `None` stands for NaN. */
    var totalTime: Option<int>
    var minTime: Option<int>
    var maxTime: Option<int>
    var avgTime: Option<int>
    var callCount: nat

    /** The ghost chain follows the `profileData` links to the record without a predecessor. */
    ghost predicate Wf()
      decreases |chain|
    {
      if profileData == null then chain == [] && repr == {}
      else
        && chain == [profileData] + profileData.chain
        && repr == {profileData} + profileData.repr
        && profileData.Wf()
    }

    /** Every statistic holds this record's own duration. */
    ghost predicate Timed()
      reads this`totalTime, this`minTime, this`avgTime, this`maxTime
    {
      totalTime == Some(dt) && minTime == Some(dt) && avgTime == Some(dt) && maxTime == Some(dt)
    }

    /** The statistics have not been computed yet. */
    ghost predicate Untimed()
      reads this`totalTime, this`minTime, this`avgTime, this`maxTime
    {
      totalTime.None? && minTime.None? && avgTime.None? && maxTime.None?
    }

    constructor (name: string, dt: int, profileData: ProfilerData?)
      requires profileData != null ==> profileData.Wf()
      ensures Wf()
      ensures this.name == name && this.dt == dt && this.profileData == profileData
      ensures chain == ChainFrom(profileData)
      ensures results == None && Untimed() && callCount == 0
    {
      this.name := name;
      this.dt := dt;
      this.profileData := profileData;
      this.chain := if profileData == null then [] else [profileData] + profileData.chain;
      this.repr := if profileData == null then {} else {profileData} + profileData.repr;
      results := None;
      totalTime, minTime, maxTime, avgTime := None, None, None, None;
      callCount := 0;
    }

    /**
     * `_process_results`: unless the cache is already filled, start an empty
     * cache, time this record, then `process` the predecessors. The record
     * without a predecessor is timed but never grouped. With no predecessor at
     * all, `process(None, ...)` reads a field of `None` and raises, leaving the
     * cache empty but filled.
     */
    method ProcessResults() returns (r: Result<(), ProcessingError>)
      requires Wf()
      modifies this`results, this`totalTime, this`minTime, this`avgTime, this`maxTime
      modifies repr`totalTime, repr`minTime, repr`avgTime, repr`maxTime
      ensures old(results).Some? ==> r.Ok? && unchanged(this) && unchanged(repr)
      ensures old(results).None? ==>
        && r == (if profileData == null then Err(NoneHasNoAttribute) else Ok(()))
        && results == Some(GroupByName(Grouped(chain)))
        && Timed()
        && (forall n :: n in repr ==> n.Timed())
        && (forall i :: 0 <= i < |chain| ==> chain[i].Timed())
    {
      if results.Some? {
        return Ok(());
      }
      results := Some(map[]);
      SetTimes();
      if profileData == null {
        return Err(NoneHasNoAttribute);
      }
      assert this !in repr && this !in profileData.repr by {
        ReprDepth(this);
      }
      Process(profileData);
      assert forall n :: n in repr ==> n.Timed();
      forall i | 0 <= i < |chain| ensures chain[i].Timed() {
        assert chain[i] in repr by {
          ChainRepr(this);
        }
      }
      assert Visited(profileData) == Grouped(chain) by {
        VisitedIsGrouped(profileData);
      }
      r := Ok(());
    }

    /**
     * The nested `process(data, result_data)` of `_process_results`, with
     * `result_data` being this record's cache: time `data`; unless it is the
     * oldest record, append it under its name and go on with its predecessor.
     */
    method Process(data: ProfilerData)
      requires data.Wf() && data != this && this !in data.repr && results.Some?
      modifies this`results, data`totalTime, data`minTime, data`avgTime, data`maxTime
      modifies data.repr`totalTime, data.repr`minTime, data.repr`avgTime, data.repr`maxTime
      ensures results == Some(GroupInto(old(results.value), Visited(data)))
      ensures data.Timed() && forall n :: n in data.repr ==> n.Timed()
      decreases |data.chain|
    {
      data.SetTimes();
      if data.profileData == null {
        return;
      }
      results := Some(AddCall(results.value, data));
      assert data !in data.repr by {
        ReprDepth(data);
      }
      Process(data.profileData);
    }

    /** Sets every statistic to this record's own duration, as each step of the walk does. */
    method SetTimes()
      modifies this`totalTime, this`minTime, this`avgTime, this`maxTime
      ensures Timed()
    {
      totalTime, minTime, avgTime, maxTime := Some(dt), Some(dt), Some(dt), Some(dt);
    }

    /**
     * The `results` property: process the chain (once) and return the cache.
     * The source returns `self._results or {}`, which is the cache itself once
     * it is filled.
     */
    method Results() returns (r: Result<map<string, seq<ProfilerData>>, ProcessingError>)
      requires Wf()
      modifies this`results, this`totalTime, this`minTime, this`avgTime, this`maxTime
      modifies repr`totalTime, repr`minTime, repr`avgTime, repr`maxTime
      ensures old(results).Some? ==> r == Ok(old(results).value) && unchanged(this) && unchanged(repr)
      ensures old(results).None? && profileData == null ==> r == Err(NoneHasNoAttribute)
      ensures old(results).None? && profileData != null ==> r == Ok(GroupByName(Grouped(chain)))
      ensures old(results).None? && profileData == null ==> results == Some(map[])
      ensures old(results).None? ==> Timed() && forall n :: n in repr ==> n.Timed()
      ensures results.Some? && (r.Ok? ==> results == Some(r.value))
    {
      var processed := ProcessResults();
      if processed.Err? {
        return Err(processed.error);
      }
      r := Ok(results.value);
    }
  }

  /** The ghost chain of a record that would have `p` as its predecessor. */
  ghost function ChainFrom(p: ProfilerData?): (c: seq<ProfilerData>)
    ensures p != null ==> |c| == |p.chain| + 1
    ensures p == null <==> c == []
  {
    if p == null then [] else [p] + p.chain
  }

  /** The number of records reachable from `head`, itself included. */
  ghost function Length(head: ProfilerData?): nat
  {
    if head == null then 0 else |head.chain| + 1
  }

  /** The records `_process_results` groups: every predecessor except the oldest one. */
  ghost function Grouped(chain: seq<ProfilerData>): seq<ProfilerData>
  {
    if chain == [] then [] else chain[..|chain| - 1]
  }

  /** `result_data[data.name].append(data)`, creating the list on first use. */
  function AddCall(m: map<string, seq<ProfilerData>>, data: ProfilerData): (r: map<string, seq<ProfilerData>>)
    ensures r.Keys == m.Keys + {data.name}
    ensures r[data.name] == (if data.name in m then m[data.name] else []) + [data]
    ensures forall k :: k in m && k != data.name ==> r[k] == m[k]
  {
    m[data.name := (if data.name in m then m[data.name] else []) + [data]]
  }

  /** `result_data` after appending each record of `s`, in order, under its name. */
  ghost function GroupInto(m: map<string, seq<ProfilerData>>, s: seq<ProfilerData>): map<string, seq<ProfilerData>>
    decreases |s|
  {
    if s == [] then m else GroupInto(AddCall(m, s[0]), s[1..])
  }

  /** The cache built from an empty dictionary by visiting `visited` in order. */
  ghost function GroupByName(visited: seq<ProfilerData>): map<string, seq<ProfilerData>>
  {
    GroupInto(map[], visited)
  }

  /**
   * The records `process(data, ...)` appends, in order: `data` and each of its
   * predecessors that has a predecessor of its own.
   */
  ghost function Visited(data: ProfilerData): seq<ProfilerData>
    requires data.Wf()
    decreases |data.chain|
  {
    if data.profileData == null then [] else [data] + Visited(data.profileData)
  }

  /** Reference definition: the records of `s` named `k`, in the order of `s`. */
  ghost function Named(s: seq<ProfilerData>, k: string): seq<ProfilerData>
  {
    if s == [] then [] else (if s[0].name == k then [s[0]] else []) + Named(s[1..], k)
  }

  /** The names occurring in `s`. */
  ghost function Names(s: seq<ProfilerData>): set<string>
  {
    set i | 0 <= i < |s| :: s[i].name
  }

  /**
   * Appending the records of `s` to a cache adds exactly their names, and
   * under each name appends every record of `s` with that name, in order.
   */
  lemma {:induction false} GroupIntoNamed(m: map<string, seq<ProfilerData>>, s: seq<ProfilerData>)
    ensures GroupInto(m, s).Keys == m.Keys + Names(s)
    ensures forall k :: k in GroupInto(m, s) ==>
      GroupInto(m, s)[k] == (if k in m then m[k] else []) + Named(s, k)
    decreases |s|
  {
    if s != [] {
      var m' := AddCall(m, s[0]);
      GroupIntoNamed(m', s[1..]);
      NamesTail(s);
    }
  }

  /**
   * The cache `_process_results` builds holds exactly the names of the
   * visited records, and under each name every visited record of that name,
   * in visiting order (newest first).
   */
  lemma GroupByNameIsNamed(s: seq<ProfilerData>)
    ensures GroupByName(s).Keys == Names(s)
    ensures forall k :: k in GroupByName(s) ==> GroupByName(s)[k] == Named(s, k)
  {
    GroupIntoNamed(map[], s);
  }

  /** `process(data, ...)` groups every record from `data` on except the oldest one. */
  lemma {:induction false} VisitedIsGrouped(data: ProfilerData)
    requires data.Wf()
    ensures Visited(data) == Grouped([data] + data.chain)
    decreases |data.chain|
  {
    var p := data.profileData;
    if p == null {
      assert [data] + data.chain == [data];
    } else {
      VisitedIsGrouped(p);
      var t := [p] + p.chain;
      assert [data] + data.chain == [data] + t;
      assert ([data] + t)[..|t|] == [data] + t[..|t| - 1];
    }
  }

  /** The names of a non-empty sequence: its first record's name and the names of the rest. */
  lemma NamesTail(s: seq<ProfilerData>)
    requires s != []
    ensures Names(s) == {s[0].name} + Names(s[1..])
  {
  }

  /**
   * Every record a well-formed record reaches has a shorter chain than its
   * own, so following the links never comes back to where it started.
   */
  lemma {:induction false} ReprDepth(n: ProfilerData)
    requires n.Wf()
    ensures forall o :: o in n.repr ==> |o.chain| < |n.chain|
    ensures n !in n.repr
    decreases |n.chain|
  {
    if n.profileData != null {
      ReprDepth(n.profileData);
    }
  }

  /** The records a well-formed record reaches are exactly those of its chain. */
  lemma {:induction false} ChainRepr(n: ProfilerData)
    requires n.Wf()
    ensures forall o :: o in n.repr <==> o in n.chain
    decreases |n.chain|
  {
    if n.profileData != null {
      ChainRepr(n.profileData);
    }
  }
}
