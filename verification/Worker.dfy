/** A worker executing one request against the shared store. */
module WorkerThread {
  import opened Requests
  import opened Machine
  import opened Equivalence

  const VALUE_SIZE: nat := 4096

  /** What every Write stores, whatever its argument. */
  function Template(): (value: string)
    ensures |value| == 4096 && forall i :: 0 <= i < 4096 ==> value[i] == '*'
  {
    seq(VALUE_SIZE, _ => '*')
  }

  class Storage {
    var data: map<int, string>

    method Read(key: int) returns (value: Option<string>)
      ensures value == Lookup(data, key)
      ensures value == if key in data then Some(data[key]) else None
    {
      if key in data {
        value := Some(data[key]);
      } else {
        value := None;
      }
    }

    method Write(key: int, value: string)
      modifies this
      ensures data == old(data)[key := Template()]
    {
      data := data[key := Template()];
    }

    /** All the values, or nothing if some key is missing: the exception discards the values before it.
        `looked` is what was looked up, one key after the other. */
    method Scan(start: int, length: int) returns (values: Option<seq<string>>, ghost looked: seq<Option<string>>)
      requires length > 0 ==> data != map[]
      ensures |looked| == (if length < 0 then 0 else length) || (0 < |looked| <= length && looked[|looked| - 1].None?)
      ensures forall i :: 0 <= i < |looked| ==> looked[i] == Lookup(data, ScanKey(start, i, |data|))
      ensures forall i :: 0 <= i < |looked| - 1 ==> looked[i].Some?
      ensures values == Found(looked)
      ensures values.Some? <==> forall i: nat :: i < length ==> ScanKey(start, i, |data|) in data
      ensures values.Some? ==> |values.value| == (if length < 0 then 0 else length)
      ensures values.Some? ==>
                forall i :: 0 <= i < |values.value| ==>
                  ScanKey(start, i, |data|) in data && values.value[i] == data[ScanKey(start, i, |data|)]
    {
      hide Found;
      NothingFound();
      var found := [];
      looked := [];
      var i := 0;
      while i < length
        invariant 0 <= i && (i <= length || i == 0) && |looked| == i
        invariant forall j :: 0 <= j < i ==> looked[j].Some? && looked[j] == Lookup(data, ScanKey(start, j, |data|))
        invariant Found(looked) == Some(found)
      {
        var value := Read(ScanKey(start, i, |data|));
        FoundMore(looked, value);
        looked := looked + [value];
        if value.None? {
          assert ScanKey(start, i, |data|) !in data;
          return None, looked;
        }
        found := found + [value.value];
        i := i + 1;
      }
      FoundAre(looked);
      return Some(found), looked;
    }
  }

  /** The values that were read, if none was missing. */
  function Found(looked: seq<Option<string>>): Option<seq<string>> {
    if looked == [] then Some([]) else
      var (before, last) := (Found(looked[..|looked| - 1]), looked[|looked| - 1]);
      if before.None? || last.None? then None else Some(before.value + [last.value])
  }

  lemma NothingFound()
    ensures Found([]) == Some([])
  {
  }

  lemma {:induction false} FoundAre(looked: seq<Option<string>>)
    ensures Found(looked).Some? <==> forall i :: 0 <= i < |looked| ==> looked[i].Some?
    ensures Found(looked).Some? ==> |Found(looked).value| == |looked|
    ensures Found(looked).Some? ==> forall i :: 0 <= i < |looked| ==> looked[i] == Some(Found(looked).value[i])
  {
    if looked != [] {
      FoundAre(looked[..|looked| - 1]);
    }
  }

  lemma FoundMore(looked: seq<Option<string>>, value: Option<string>)
    ensures Found(looked + [value])
         == if Found(looked).None? || value.None? then None else Some(Found(looked).value + [value.value])
  {
    assert (looked + [value])[..|looked|] == looked;
  }

  /** Every value is followed by a comma. */
  function Listed(values: seq<string>): string {
    if values == [] then "" else Listed(values[..|values| - 1]) + values[|values| - 1] + ","
  }

  /** Where the values before the `i`-th one, with their commas, end. */
  function ListedTo(values: seq<string>, i: nat): nat
    requires i <= |values|
  {
    if i == 0 then 0 else ListedTo(values, i - 1) + |values[i - 1]| + 1
  }

  /** The list is as long as its values and one comma for each; every value stands in its place, in order, with
      a comma after it. */
  lemma {:induction false} ListedSize(values: seq<string>)
    ensures |Listed(values)| == ListedTo(values, |values|)
  {
    if values != [] {
      var n := |values| - 1;
      ListedSize(values[..n]);
      ListedToPrefix(values, n, n);
    }
  }

  /** Every value stands in its place, in order, with a comma after it. */
  lemma {:induction false} ListedIs(values: seq<string>, i: nat)
    requires i < |values|
    ensures var (at, text) := (ListedTo(values, i), Listed(values));
            at + |values[i]| < |text| && text[at..at + |values[i]|] == values[i] && text[at + |values[i]|] == ','
  {
    var n := |values| - 1;
    var (at, before) := (ListedTo(values, i), Listed(values[..n]));
    ListedSize(values[..n]);
    ListedToPrefix(values, n, i);
    assert Listed(values) == before + values[n] + ",";
    if i < n {
      ListedIs(values[..n], i);
      InFront(before, values[n] + ",", at, |values[i]|);
      assert before + (values[n] + ",") == before + values[n] + ",";
    }
  }

  lemma InFront(a: string, b: string, at: nat, length: nat)
    requires at + length < |a|
    ensures (a + b)[at..at + length] == a[at..at + length] && (a + b)[at + length] == a[at + length]
  {
  }

  lemma {:induction false} ListedToPrefix(values: seq<string>, n: nat, i: nat)
    requires i <= n <= |values|
    ensures ListedTo(values[..n], i) == ListedTo(values, i)
  {
    if i > 0 {
      ListedToPrefix(values, n, i - 1);
    }
  }

  /** The answer the client gets for what a request read; a Read of an absent key ends the process
      with an exception. */
  function AnswerOf(r: Request, got: seq<Option<string>>): Option<string>
    requires got != []
  {
    if !r.kind.Scan? then got[0] else if Found(got).None? then Some("ERROR") else Some(Listed(Found(got).value))
  }

  /** The configuration of the transition system that stores what `Storage.Write` stores. */
  function TemplateConfig(stream: seq<Request>): Config {
    Config(stream, 1, 0, map[], 0, map[], (r, old_) => Template())
  }

  /** Every key of a scan, modulo the size of the store, is there. */
  predicate AllPresent(r: Request, store: map<int, string>)
    requires r.length > 0 ==> store != map[]
  {
    forall i: nat :: i < r.length ==> ScanKey(r.key, i, |store|) in store
  }

  /** These are the values at its keys. */
  predicate Scanned(r: Request, store: map<int, string>, values: seq<string>)
    requires r.length > 0 ==> store != map[]
  {
    && |values| == (if r.length < 0 then 0 else r.length)
    && forall i :: 0 <= i < |values| ==>
         ScanKey(r.key, i, |store|) in store && values[i] == store[ScanKey(r.key, i, |store|)]
  }

  class Partition {
    const storage: Storage
    var executed: nat
    var errors: nat

    constructor (storage: Storage)
      ensures this.storage == storage && executed == 0 && errors == 0
    {
      this.storage := storage;
      executed := 0;
      errors := 0;
    }

    /** One pass of the worker loop over a message that is not a barrier does to the store what the
        transition system does for it when nobody interferes, and answers accordingly; a failed scan counts
        as an error, and an executed request is counted unless the exception of a Read ends the process. */
    method Execute(request: Request) returns (answer: Option<string>, ghost got: seq<Option<string>>)
      requires CanRead(request, storage.data) && Submittable(request)
      modifies this, storage
      ensures Progress(storage.data, got) == Alone(TemplateConfig([]), request, old(storage.data))
      ensures got != [] && answer == AnswerOf(request, got)
      ensures request.kind.Read? ==>
                answer == if request.key in old(storage.data) then Some(old(storage.data)[request.key]) else None
      ensures request.kind.Write? ==> answer == Some(request.args)
      ensures request.kind.Error? ==> answer == Some("ERROR")
      ensures request.kind.Scan? && AllPresent(request, old(storage.data)) ==>
                exists values :: Scanned(request, old(storage.data), values) && answer == Some(Listed(values))
      ensures request.kind.Scan? && !AllPresent(request, old(storage.data)) ==>
                answer == Some("ERROR") && errors == old(errors) + 1
      ensures !request.kind.Read? && !request.kind.Write? && !request.kind.Scan? && !request.kind.Error? ==>
                answer == Some("")
      ensures storage.data == if request.kind.Write? then old(storage.data)[request.key := Template()] else old(storage.data)
      ensures executed == old(executed) + if answer.Some? then 1 else 0
      ensures errors == old(errors) + if request.kind.Scan? && Found(got).None? then 1 else 0
    {
      if !request.kind.Scan? {
        SingleAlone(request, storage.data);
      }
      match request.kind {
        case Read =>
          answer := storage.Read(request.key);
          got := [answer];
          if answer.None? {
            return;
          }
        case Write =>
          storage.Write(request.key, request.args);
          answer := Some(request.args);
          got := [answer];
        case Scan =>
          var values;
          values, got := storage.Scan(request.key, request.length);
          ScanAlone(request, storage.data, got, |got|);
          if values.None? {
            errors := errors + 1;
            answer := Some("ERROR");
          } else {
            answer := Some(Listed(values.value));
          }
        case Error =>
          answer := Some("ERROR");
          got := [answer];
        case _ =>
          answer := Some("");
          got := [answer];
      }
      executed := executed + 1;
    }
  }

  lemma SingleAlone(r: Request, store: map<int, string>)
    requires !r.kind.Scan?
    ensures Alone(TemplateConfig([]), r, store) == Access(TemplateConfig([]), r, Progress(store, []))
  {
    var c := TemplateConfig([]);
    var p := Progress(store, []);
    var q := Access(c, r, p);
    assert |q.got| == 1 && !Complete(r, p.got) && Complete(r, q.got);
    assert Continue(c, r, q) == q;
    assert Continue(c, r, p) == Continue(c, r, q);
  }

  /** The first `t` values of a scan are the first `t` accesses, and no earlier one completes it. */
  lemma {:induction false} ScanAlone(r: Request, store: map<int, string>, got: seq<Option<string>>, t: nat)
    requires store != map[] && r.kind.Scan? && t <= |got| <= r.length
    requires forall i :: 0 <= i < |got| ==> got[i] == Lookup(store, ScanKey(r.key, i, |store|))
    requires forall i :: 0 <= i < |got| - 1 ==> got[i].Some?
    ensures Continue(TemplateConfig([]), r, Progress(store, got[..t])) == Alone(TemplateConfig([]), r, store)
    ensures got[..|got|] == got
  {
    if t == 0 {
    } else {
      ScanAlone(r, store, got, t - 1);
      assert got[..t - 1] + [got[t - 1]] == got[..t];
      assert Access(TemplateConfig([]), r, Progress(store, got[..t - 1])) == Progress(store, got[..t]);
    }
  }
}
