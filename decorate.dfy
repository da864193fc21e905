/** The memoizing call wrapper of conjure/decorate.py: a function's results
    cached in a store under a key built from the function's identifier and
    a name for its arguments. Identifiers, the argument namer and the
    (de)serializers are opaque functions. */
module Decorate {

  import opened Octets
  import opened Outcomes
  import opened Utf8
  import opened Storage

  /** The default `key_delimiter` of `Conjure` and of `conjure`
      (conjure/decorate.py:33, 150). */
  const DefaultKeyDelimiter: string := "_"

  /** What one call does with the bytes the store holds under its key: the
      result it returns, whether it ran the computation, and the bytes it
      writes back, if any. */
  datatype Step<V> = Step(result: Result<V>, computed: bool, written: Option<Bytes>)

  /** The error Python raises for `storage[key] = raw` on a collection that
      defines no `__setitem__`. */
  function ItemAssignmentError(s: Store): Error {
    var cls := match s
      case Embedded(_) => "LmdbCollection"
      case Tiered(_) => "LocalCollectionWithBackup";
    TypeError("'" + cls + "' object does not support item assignment")
  }

  class Conjure<A, V> {
    const callable: A -> V
    const contentType: string
    const storage: Store
    const funcIdentifier: (A -> V) -> string   // `func_identifier.derive_name`
    const paramIdentifier: A -> string          // `param_identifier.derive_name`
    const serializer: V -> Bytes                // `serializer.to_bytes`
    const deserializer: Bytes -> V              // `deserializer.from_bytes`
    const keyDelimiter: string

    /** The arguments the callable has been run on, in order. */
    ghost var computed: seq<A>

    /** `Conjure(...)` (conjure/decorate.py:24-43). */
    constructor (callable: A -> V, contentType: string, storage: Store,
                 funcIdentifier: (A -> V) -> string, paramIdentifier: A -> string,
                 serializer: V -> Bytes, deserializer: Bytes -> V,
                 keyDelimiter: string := DefaultKeyDelimiter)
      ensures this.callable == callable && this.contentType == contentType
      ensures this.storage == storage && this.funcIdentifier == funcIdentifier
      ensures this.paramIdentifier == paramIdentifier
      ensures this.serializer == serializer && this.deserializer == deserializer
      ensures this.keyDelimiter == keyDelimiter && computed == []
    {
      this.callable := callable;
      this.contentType := contentType;
      this.storage := storage;
      this.funcIdentifier := funcIdentifier;
      this.paramIdentifier := paramIdentifier;
      this.serializer := serializer;
      this.deserializer := deserializer;
      this.keyDelimiter := keyDelimiter;
      computed := [];
    }

    /** The `identifier` property: a name of the wrapped callable alone. */
    function Identifier(): (r: string)
      ensures r == funcIdentifier(callable)
    {
      funcIdentifier(callable)
    }

    /** `identify_params(*args)`: a name of the arguments alone. */
    function IdentifyParams(args: A): (r: string)
      ensures r == paramIdentifier(args)
    {
      paramIdentifier(args)
    }

    /** `key(*args)`: the UTF-8 bytes of identifier, delimiter and the
        arguments' name, so decoding a key gives that text back. */
    function Key(args: A): (r: Bytes)
      ensures Decode(r) == Ok(Identifier() + keyDelimiter + IdentifyParams(args))
    {
      DecodeEncode(Identifier() + keyDelimiter + IdentifyParams(args));
      Encode(Identifier() + keyDelimiter + IdentifyParams(args))
    }

    /** Every key of this function begins with the bytes of its identifier
        and the delimiter; the rest are the bytes of the arguments' name. */
    lemma KeyPrefix(args: A)
      ensures Key(args) == Encode(Identifier() + keyDelimiter) + Encode(IdentifyParams(args))
      ensures Encode(Identifier() + keyDelimiter) <= Key(args)
    {
      EncodeAppend(Identifier() + keyDelimiter, IdentifyParams(args));
    }

    /** Two calls share a key exactly when their arguments have the same
        name: the identifier and delimiter are common to every key. */
    lemma KeySeparatesParams(a: A, b: A)
      ensures Key(a) == Key(b) <==> IdentifyParams(a) == IdentifyParams(b)
    {
      var p := Identifier() + keyDelimiter;
      if Key(a) == Key(b) {
        EncodeInjective(p + IdentifyParams(a), p + IdentifyParams(b));
        assert (p + IdentifyParams(a))[|p|..] == IdentifyParams(a);
        assert (p + IdentifyParams(b))[|p|..] == IdentifyParams(b);
      }
    }

    /** With the default delimiter and an identifier free of `_` (a hex
        digest), the embedded store files every key of this function under
        one feed: the identifier is the base key. */
    lemma KeyBase(args: A)
      requires keyDelimiter == DefaultKeyDelimiter && '_' !in Identifier()
      ensures DefaultBaseKey(Key(args)) == Ok(Encode(Identifier()))
    {
      BaseKeyOfJoinedKey(Identifier(), IdentifyParams(args));
    }

    /** `__call__` as intended (conjure/decorate.py:62-72, with the write
        through `put`): a hit deserializes the stored bytes; a miss runs the
        callable once and stores its serialization. */
    function Respond(stored: Option<Bytes>, args: A): Step<V> {
      match stored
      case Some(raw) => Step(Ok(deserializer(raw)), false, None)
      case None =>
        var obj := callable(args);
        Step(Ok(obj), true, Some(serializer(obj)))
    }

    /** `__call__` as written: on a miss `self.storage[key] = raw` raises,
        after the callable has run, and nothing is stored. */
    function RespondAsWritten(stored: Option<Bytes>, args: A): Step<V> {
      match stored
      case Some(raw) => Step(Ok(deserializer(raw)), false, None)
      case None =>
        var _ := callable(args);
        Step(Err(ItemAssignmentError(storage)), true, None)
    }

    /** One call's step against the stored bytes per key in `cache`. */
    function StepAt(cache: map<Bytes, Bytes>, args: A, asWritten: bool): Step<V> {
      var stored := if Key(args) in cache then Some(cache[Key(args)]) else None;
      if asWritten then RespondAsWritten(stored, args) else Respond(stored, args)
    }

    /** The stored bytes per key after that step. */
    function After(cache: map<Bytes, Bytes>, args: A, asWritten: bool): map<Bytes, Bytes> {
      var s := StepAt(cache, args, asWritten);
      if s.written.Some? then cache[Key(args) := s.written.value] else cache
    }

    /** The steps of successive calls, starting from the stored bytes per
        key in `cache`, when the store's reads and writes succeed. */
    function Run(cache: map<Bytes, Bytes>, calls: seq<A>, asWritten: bool): (r: seq<Step<V>>)
      ensures |r| == |calls|
      decreases |calls|
    {
      if calls == [] then []
      else [StepAt(cache, calls[0], asWritten)] + Run(After(cache, calls[0], asWritten), calls[1..], asWritten)
    }

    /** Every step after the first is a step of the run from the first
        call's new state. */
    lemma RunTail(cache: map<Bytes, Bytes>, calls: seq<A>, asWritten: bool, i: nat)
      requires 1 <= i < |calls|
      ensures calls[1..][i - 1] == calls[i]
      ensures Run(cache, calls, asWritten)[i] == Run(After(cache, calls[0], asWritten), calls[1..], asWritten)[i - 1]
    {}

    /** Once a key is stored, every later call with that key is a hit. */
    lemma {:induction false} StoredKeysHit(cache: map<Bytes, Bytes>, calls: seq<A>, asWritten: bool)
      ensures forall i :: 0 <= i < |calls| && Key(calls[i]) in cache ==> !Run(cache, calls, asWritten)[i].computed
      decreases |calls|
    {
      if calls != [] {
        var next := After(cache, calls[0], asWritten);
        assert cache.Keys <= next.Keys;
        StoredKeysHit(next, calls[1..], asWritten);
        forall i | 1 <= i < |calls| && Key(calls[i]) in cache
          ensures !Run(cache, calls, asWritten)[i].computed
        {
          RunTail(cache, calls, asWritten, i);
        }
      }
    }

    /** The computation runs at most once per key: of two calls with the
        same key, the later one does not compute, and a call computes only
        when its key was not stored to begin with. */
    lemma {:induction false} ComputesAtMostOnce(cache: map<Bytes, Bytes>, calls: seq<A>)
      ensures forall i :: 0 <= i < |calls| && Run(cache, calls, false)[i].computed ==> Key(calls[i]) !in cache
      ensures forall i, j :: 0 <= i < j < |calls| && Key(calls[i]) == Key(calls[j]) ==>
                !Run(cache, calls, false)[j].computed
      decreases |calls|
    {
      StoredKeysHit(cache, calls, false);
      if calls != [] {
        var r := Run(cache, calls, false);
        var next := After(cache, calls[0], false);
        assert Key(calls[0]) in next;
        ComputesAtMostOnce(next, calls[1..]);
        StoredKeysHit(next, calls[1..], false);
        forall i, j | 0 <= i < j < |calls| && Key(calls[i]) == Key(calls[j])
          ensures !r[j].computed
        {
          RunTail(cache, calls, false, j);
          if i > 0 {
            RunTail(cache, calls, false, i);
          }
        }
      }
    }

    /** Memoization is invisible to callers: when the deserializer undoes
        the serializer, equal keys mean equal results, and what is stored
        already is the serialized result, every call returns exactly what
        the callable returns. */
    lemma {:induction false} RunIsTransparent(cache: map<Bytes, Bytes>, calls: seq<A>)
      requires forall v :: deserializer(serializer(v)) == v
      requires forall a, b :: Key(a) == Key(b) ==> callable(a) == callable(b)
      requires forall a :: Key(a) in cache ==> deserializer(cache[Key(a)]) == callable(a)
      ensures forall i :: 0 <= i < |calls| ==> Run(cache, calls, false)[i].result == Ok(callable(calls[i]))
      decreases |calls|
    {
      if calls != [] {
        var next := After(cache, calls[0], false);
        forall a | Key(a) in next ensures deserializer(next[Key(a)]) == callable(a) {
          if Key(a) == Key(calls[0]) && Key(a) !in cache {
            assert next[Key(a)] == serializer(callable(calls[0]));
          }
        }
        RunIsTransparent(next, calls[1..]);
        forall i | 1 <= i < |calls| ensures Run(cache, calls, false)[i].result == Ok(callable(calls[i])) {
          RunTail(cache, calls, false, i);
        }
      }
    }

    /** Calling twice with the same fresh arguments computes once; the second
        call returns the stored serialization, deserialized. */
    lemma SecondCallHits(cache: map<Bytes, Bytes>, args: A)
      requires Key(args) !in cache
      ensures Run(cache, [args, args], false)
              == [Step(Ok(callable(args)), true, Some(serializer(callable(args)))),
                  Step(Ok(deserializer(serializer(callable(args)))), false, None)]
    {
      assert [args, args][1..] == [args];
    }

    /** As written, nothing is ever stored, so the same fresh arguments are
        computed again on every call, and every such call raises. */
    lemma AsWrittenRecomputes(cache: map<Bytes, Bytes>, args: A)
      requires Key(args) !in cache
      ensures Run(cache, [args, args], true)
              == [Step(Err(ItemAssignmentError(storage)), true, None),
                  Step(Err(ItemAssignmentError(storage)), true, None)]
    {
      assert [args, args][1..] == [args];
    }

    /** `exists(*args)` (conjure/decorate.py:48-50): whether the call's key is
        in the store. On the tiered store this is a read, which may backfill. */
    method Exists(args: A, stamps: Stamps) returns (r: Result<bool>)
      requires storage.Valid()
      modifies storage.Envs()
      ensures storage.Valid()
      ensures old(storage.CanGet(Key(args), stamps)) ==> r == Ok(old(storage.Lookup(Key(args))).Some?)
      ensures old(storage.Lookup(Key(args))).Some? && !old(storage.CanGet(Key(args), stamps)) ==>
                r.Err? && !r.error.KeyError?
      ensures r.Ok? ==> (r.value <==> old(storage.Lookup(Key(args))).Some?)
      ensures storage.Dbs() == storage.AfterRead(old(storage.Dbs()), Key(args), stamps)
      ensures !old(storage.BackfillsIn(storage.Dbs(), Key(args))) ==> storage.Dbs() == old(storage.Dbs())
      ensures forall j :: storage.Lookup(j) == old(storage.Lookup(j))
    {
      r := storage.Contains(Key(args), stamps);
    }

    /** `__call__` (conjure/decorate.py:62-72) with the write done by
        `put(key, raw, content_type)`: the step `Respond` describes, against
        the store. A read failure other than `KeyError` propagates. */
    method Call(args: A, stamps: Stamps) returns (r: Result<V>)
      requires storage.Valid()
      modifies this, storage.Envs()
      ensures storage.Valid()
      ensures var stored := old(storage.Lookup(Key(args)));
              && (stored.Some? ==> computed == old(computed))
              && (stored.Some? && old(storage.CanGet(Key(args), stamps)) ==> r == Respond(stored, args).result)
              && (stored.Some? && !old(storage.CanGet(Key(args), stamps)) ==> r.Err? && !r.error.KeyError?)
              && (stored.None? ==>
                    && computed == old(computed) + [args]
                    && (r.Ok? <==> storage.CanPut(Key(args), stamps))
                    && (r.Ok? ==> r == Respond(stored, args).result
                                  && storage.Lookup(Key(args)) == Respond(stored, args).written))
      ensures r.Ok? ==> r == Respond(old(storage.Lookup(Key(args))), args).result
      ensures old(storage.Lookup(Key(args))).Some? ==>
                storage.Dbs() == storage.AfterRead(old(storage.Dbs()), Key(args), stamps)
      ensures old(storage.Lookup(Key(args))).Some? && !old(storage.BackfillsIn(storage.Dbs(), Key(args))) ==>
                storage.Dbs() == old(storage.Dbs())
      ensures old(storage.Lookup(Key(args))).None? ==>
                storage.Dbs() == storage.AfterPut(old(storage.Dbs()), Key(args), serializer(callable(args)), stamps)
      ensures computed == old(computed) || computed == old(computed) + [args]
      ensures forall j :: j != Key(args) ==> storage.Lookup(j) == old(storage.Lookup(j))
      ensures old(storage.Lookup(Key(args))).Some? ==> storage.Lookup(Key(args)) == old(storage.Lookup(Key(args)))
    {
      var key := Key(args);
      var raw := storage.Get(key, stamps);
      if raw.Ok? {
        return Ok(deserializer(raw.value));
      }
      if !raw.error.KeyError? {
        return Err(raw.error);
      }
      var obj := callable(args);
      computed := computed + [args];
      var w := storage.Put(key, serializer(obj), Some(contentType), stamps);
      if w.Err? {
        return Err(w.error);
      }
      r := Ok(obj);
    }

    /** `__call__` exactly as written (conjure/decorate.py:62-72): a miss runs
        the callable and then fails on `self.storage[key] = raw`, leaving the
        store as it was. */
    method CallAsWritten(args: A, stamps: Stamps) returns (r: Result<V>)
      requires storage.Valid()
      modifies this, storage.Envs()
      ensures storage.Valid()
      ensures var stored := old(storage.Lookup(Key(args)));
              && (stored.Some? ==> computed == old(computed))
              && (stored.Some? && old(storage.CanGet(Key(args), stamps)) ==> r == RespondAsWritten(stored, args).result)
              && (stored.Some? && !old(storage.CanGet(Key(args), stamps)) ==> r.Err? && !r.error.KeyError?)
              && (stored.None? ==>
                    r == RespondAsWritten(stored, args).result && computed == old(computed) + [args])
      ensures storage.Dbs() == storage.AfterRead(old(storage.Dbs()), Key(args), stamps)
      ensures !old(storage.BackfillsIn(storage.Dbs(), Key(args))) ==> storage.Dbs() == old(storage.Dbs())
      ensures forall j :: storage.Lookup(j) == old(storage.Lookup(j))
    {
      var key := Key(args);
      var raw := storage.Get(key, stamps);
      if raw.Ok? {
        return Ok(deserializer(raw.value));
      }
      if !raw.error.KeyError? {
        return Err(raw.error);
      }
      var _ := callable(args);
      computed := computed + [args];
      r := Err(ItemAssignmentError(storage));
    }
  }

  /** The decorator `conjure(...)` returns: the settings every function it
      wraps shares. */
  datatype Decorator<!A, !V> = Decorator(
    contentType: string,
    storage: Store,
    funcIdentifier: (A -> V) -> string,
    paramIdentifier: A -> string,
    serializer: V -> Bytes,
    deserializer: Bytes -> V,
    keyDelimiter: string)
  {
    /** `deco(f)` (conjure/decorate.py:152-162): a `Conjure` around `f`. */
    method Apply(f: A -> V) returns (c: Conjure<A, V>)
      ensures fresh(c) && c.computed == []
      ensures c.callable == f && c.contentType == contentType && c.storage == storage
      ensures c.funcIdentifier == funcIdentifier && c.paramIdentifier == paramIdentifier
      ensures c.serializer == serializer && c.deserializer == deserializer
      ensures c.keyDelimiter == keyDelimiter
    {
      c := new Conjure(f, contentType, storage, funcIdentifier, paramIdentifier,
                       serializer, deserializer, keyDelimiter);
    }
  }

  /** `conjure(...)` (conjure/decorate.py:143-164). */
  function ConjureDecorator<A, V>(contentType: string, storage: Store,
                                  funcIdentifier: (A -> V) -> string, paramIdentifier: A -> string,
                                  serializer: V -> Bytes, deserializer: Bytes -> V,
                                  keyDelimiter: string := DefaultKeyDelimiter): (d: Decorator<A, V>)
    ensures d.contentType == contentType && d.storage == storage
    ensures d.funcIdentifier == funcIdentifier && d.paramIdentifier == paramIdentifier
    ensures d.serializer == serializer && d.deserializer == deserializer
    ensures d.keyDelimiter == keyDelimiter
  {
    Decorator(contentType, storage, funcIdentifier, paramIdentifier, serializer, deserializer, keyDelimiter)
  }

  /** `json_conjure(storage)` (conjure/decorate.py:167-176): JSON content
      under the default delimiter; the content identifier, the parameter
      hash and the JSON (de)serializers are given as functions. */
  function JsonConjure<A, V>(storage: Store, contentIdentifier: (A -> V) -> string,
                             paramsHash: A -> string, toJson: V -> Bytes,
                             fromJson: Bytes -> V): (d: Decorator<A, V>)
    ensures d.contentType == "application/json" && d.keyDelimiter == "_"
    ensures d.storage == storage && d.funcIdentifier == contentIdentifier
    ensures d.paramIdentifier == paramsHash
    ensures d.serializer == toJson && d.deserializer == fromJson
  {
    ConjureDecorator("application/json", storage, contentIdentifier, paramsHash, toJson, fromJson)
  }
}
