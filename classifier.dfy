/** The on-device landmark classifier: a Teachable Machine model loaded at
    most once into a module-level slot, a prediction call that loads the model
    on demand and ranks the predictions by descending probability, and a
    selector for the best prediction. The `tmImage` library and the model's
    own `predict` are foreign code; their outcomes are parameters. */
module Classifier {
  import opened Wrappers
  import opened Types

  const ModelUrl := "https://teachablemachine.withgoogle.com/models/Tj9tR8HOa/"
  const LibraryMissingMessage := "Teachable Machine library not loaded"
  const LoadFailedMessage := "Failed to load the landmark recognizer. Please check your internet connection."
  const PredictFailedMessage := "Oops! Couldn't recognize that image."

  /** A loaded model, identified by the two resources it was loaded from. */
  datatype TmModel = TmModel(modelUrl: string, metadataUrl: string)

  /** The model `tmImage.load` yields when it succeeds. */
  const LoadedModel := TmModel(ModelUrl + "model.json", ModelUrl + "metadata.json")

  /** What the page offers the loader: whether the global `tmImage` library
      is present, and whether `tmImage.load` resolves (it fails, for one,
      when the model resources cannot be fetched). */
  datatype Host = Host(tmImagePresent: bool, loadSucceeds: bool)

  // ---------------------------------------------------------------------
  // Loading
  // ---------------------------------------------------------------------

  /** The module-level model after one `loadModel` call. */
  function ModelAfterLoad(model: Option<TmModel>, host: Host): (m: Option<TmModel>)
    ensures model.Some? ==> m == model
    ensures m.Some? <==> model.Some? || (host.tmImagePresent && host.loadSucceeds)
    ensures model.None? && m.Some? ==> m.value == LoadedModel
  {
    if model.Some? then model
    else if host.tmImagePresent && host.loadSucceeds then Some(LoadedModel)
    else None
  }

  /** What one `loadModel` call reports: nothing, or the message it throws. */
  function LoadResult(model: Option<TmModel>, host: Host): (r: Result<()>)
    ensures r.Success? <==> ModelAfterLoad(model, host).Some?
    ensures model.None? && !host.tmImagePresent ==> r == Failure(LibraryMissingMessage)
    ensures model.None? && host.tmImagePresent && !host.loadSucceeds ==> r == Failure(LoadFailedMessage)
  {
    if model.Some? then Success(())
    else if !host.tmImagePresent then Failure(LibraryMissingMessage)
    else if !host.loadSucceeds then Failure(LoadFailedMessage)
    else Success(())
  }

  /** Once a model is held, loading again neither fails nor replaces it. */
  lemma LoadIsAtMostOnce(m: TmModel, host: Host)
    ensures ModelAfterLoad(Some(m), host) == Some(m)
    ensures LoadResult(Some(m), host).Success?
  {
  }

  /** A failed load leaves the slot empty, so the next call tries again. */
  lemma FailedLoadIsRetried(model: Option<TmModel>, host: Host, retry: Host)
    requires LoadResult(model, host).Failure?
    ensures ModelAfterLoad(model, host) == None
    ensures ModelAfterLoad(ModelAfterLoad(model, host), retry) == ModelAfterLoad(None, retry)
  {
  }

  // ---------------------------------------------------------------------
  // Ranking
  // ---------------------------------------------------------------------

  /** Non-increasing probability: what the comparator
      `(a, b) => b.probability - a.probability` asks of the sorted array. */
  ghost predicate SortedByProbability(s: seq<PredictionResult>)
  {
    forall i, j :: 0 <= i < j < |s| ==> s[i].probability >= s[j].probability
  }

  /** Places `x` after every element of `t`, scanning from the back, that is
      at least as probable as `x`: equal probabilities keep their order, as
      `Array.prototype.sort` is stable. */
  function Insert(t: seq<PredictionResult>, x: PredictionResult): seq<PredictionResult>
    decreases |t|
  {
    if t == [] || t[|t| - 1].probability >= x.probability then t + [x]
    else Insert(t[..|t| - 1], x) + [t[|t| - 1]]
  }

  /** The stable sort by descending probability, one element at a time. */
  function SortByProbability(s: seq<PredictionResult>): seq<PredictionResult>
    decreases |s|
  {
    if s == [] then [] else Insert(SortByProbability(s[..|s| - 1]), s[|s| - 1])
  }

  /** Appending an element no more probable than the last keeps the order. */
  lemma AppendKeepsSorted(s: seq<PredictionResult>, y: PredictionResult)
    requires SortedByProbability(s)
    requires s == [] || s[|s| - 1].probability >= y.probability
    ensures SortedByProbability(s + [y])
  {
    forall i, j | 0 <= i < j < |s| + 1
      ensures (s + [y])[i].probability >= (s + [y])[j].probability
    {
      if j == |s| {
        assert (s + [y])[i] == s[i];
      }
    }
  }

  /** Inserting adds exactly the new element. */
  lemma {:induction false} InsertIsPermutation(t: seq<PredictionResult>, x: PredictionResult)
    ensures multiset(Insert(t, x)) == multiset(t) + multiset{x}
    decreases |t|
  {
    if t != [] && t[|t| - 1].probability < x.probability {
      var init, last := t[..|t| - 1], t[|t| - 1];
      assert t == init + [last];
      InsertIsPermutation(init, x);
    }
  }

  /** Inserting into a ranked list gives a ranked list. */
  lemma {:induction false} InsertKeepsOrder(t: seq<PredictionResult>, x: PredictionResult)
    requires SortedByProbability(t)
    ensures SortedByProbability(Insert(t, x))
    decreases |t|
  {
    if t == [] || t[|t| - 1].probability >= x.probability {
      AppendKeepsSorted(t, x);
    } else {
      var init, last := t[..|t| - 1], t[|t| - 1];
      assert t == init + [last];
      InsertKeepsOrder(init, x);
      InsertIsPermutation(init, x);
      var r := Insert(init, x);
      assert r != [] by {
        assert x in multiset(r);
      }
      var p := r[|r| - 1];
      assert p.probability >= last.probability by {
        assert p in multiset(r);
        if p != x {
          assert p in multiset(init);
          var k :| 0 <= k < |init| && init[k] == p;
          assert t[k] == p;
        }
      }
      AppendKeepsSorted(r, last);
    }
  }

  /** The ranking is in non-increasing probability and is a permutation of
      the predictions it was given. */
  lemma {:induction false} SortIsOrderedPermutation(s: seq<PredictionResult>)
    ensures multiset(SortByProbability(s)) == multiset(s)
    ensures SortedByProbability(SortByProbability(s))
    decreases |s|
  {
    if s != [] {
      var init, last := s[..|s| - 1], s[|s| - 1];
      assert s == init + [last];
      SortIsOrderedPermutation(init);
      InsertIsPermutation(SortByProbability(init), last);
      InsertKeepsOrder(SortByProbability(init), last);
    }
  }

  /** The predictions of `s` whose probability is exactly `v`, in the order
      `s` has them. */
  function Ties(s: seq<PredictionResult>, v: real): seq<PredictionResult>
    decreases |s|
  {
    if s == [] then []
    else Ties(s[..|s| - 1], v) + (if s[|s| - 1].probability == v then [s[|s| - 1]] else [])
  }

  /** Picking the ties of a concatenation picks them from each part. */
  lemma {:induction false} TiesAppend(a: seq<PredictionResult>, b: seq<PredictionResult>, v: real)
    ensures Ties(a + b, v) == Ties(a, v) + Ties(b, v)
    decreases |b|
  {
    if b != [] {
      var init := b[..|b| - 1];
      assert (a + b)[..|a + b| - 1] == a + init;
      TiesAppend(a, init, v);
    } else {
      assert a + b == a;
    }
  }

  /** Inserting `x` adds it at the end of its ties: it moves only past
      strictly less probable elements. */
  lemma {:induction false} InsertTies(t: seq<PredictionResult>, x: PredictionResult, v: real)
    ensures Ties(Insert(t, x), v) == Ties(t, v) + Ties([x], v)
    decreases |t|
  {
    if t == [] || t[|t| - 1].probability >= x.probability {
      TiesAppend(t, [x], v);
    } else {
      var init, last := t[..|t| - 1], t[|t| - 1];
      InsertTies(init, x, v);
      TiesAppend(Insert(init, x), [last], v);
      assert Ties([last], v) == [] || Ties([x], v) == [];
    }
  }

  /** The ranking is stable: for every probability, the predictions with
      that probability keep the order the model gave them. */
  lemma {:induction false} SortIsStable(s: seq<PredictionResult>, v: real)
    ensures Ties(SortByProbability(s), v) == Ties(s, v)
    decreases |s|
  {
    if s != [] {
      var init, last := s[..|s| - 1], s[|s| - 1];
      SortIsStable(init, v);
      InsertTies(SortByProbability(init), last, v);
      assert Ties(s, v) == Ties(init, v) + Ties([last], v);
    }
  }

  /** Ranking a list that is already ranked leaves it as it is, ties
      included. */
  lemma {:induction false} SortKeepsRankedList(s: seq<PredictionResult>)
    requires SortedByProbability(s)
    ensures SortByProbability(s) == s
    decreases |s|
  {
    if s != [] {
      var init := s[..|s| - 1];
      assert SortedByProbability(init);
      SortKeepsRankedList(init);
      assert s == init + [s[|s| - 1]];
    }
  }

  /** Ranking twice is ranking once. */
  lemma SortIsIdempotent(s: seq<PredictionResult>)
    ensures SortByProbability(SortByProbability(s)) == SortByProbability(s)
  {
    SortIsOrderedPermutation(s);
    SortKeepsRankedList(SortByProbability(s));
  }

  /** The first ranked prediction is one of the predictions, and none of
      them is more probable. */
  lemma SortedHeadIsMaximum(s: seq<PredictionResult>)
    requires s != []
    ensures SortByProbability(s) != []
    ensures SortByProbability(s)[0] in s
    ensures forall p | p in s :: p.probability <= SortByProbability(s)[0].probability
  {
    SortIsOrderedPermutation(s);
    var t := SortByProbability(s);
    assert t != [] by {
      assert s[0] in multiset(t);
    }
    assert t[0] in multiset(t);
    forall p | p in s ensures p.probability <= t[0].probability {
      assert p in multiset(t);
      var k :| 0 <= k < |t| && t[k] == p;
    }
  }

  /** A non-empty list's first element heads its own ties. */
  lemma TiesStartWithHead(t: seq<PredictionResult>)
    requires t != []
    ensures Ties(t, t[0].probability) != [] && Ties(t, t[0].probability)[0] == t[0]
  {
    assert t == [t[0]] + t[1..];
    TiesAppend([t[0]], t[1..], t[0].probability);
    assert [t[0]][..0] == [];
  }

  /** Among the most probable predictions, the first ranked one is the
      first in the model's order. */
  lemma SortedHeadIsFirstOfTies(s: seq<PredictionResult>)
    requires s != []
    ensures SortByProbability(s) != []
    ensures var h := SortByProbability(s)[0];
      Ties(s, h.probability) != [] && Ties(s, h.probability)[0] == h
  {
    SortedHeadIsMaximum(s);
    var t := SortByProbability(s);
    SortIsStable(s, t[0].probability);
    TiesStartWithHead(t);
  }

  /** Where the insertion puts `x`: after the element at `j - 1`, which is
      at least as probable, and in front of a suffix that is strictly less
      probable. */
  lemma {:induction false} InsertPlacesAt(t: seq<PredictionResult>, x: PredictionResult, j: nat)
    requires j <= |t| && (j == 0 || t[j - 1].probability >= x.probability)
    requires forall k :: j <= k < |t| ==> t[k].probability < x.probability
    ensures Insert(t, x) == t[..j] + [x] + t[j..]
    decreases |t|
  {
    if |t| > j {
      var init := t[..|t| - 1];
      assert init[..j] == t[..j];
      InsertPlacesAt(init, x, j);
      assert t[j..] == init[j..] + [t[|t| - 1]];
    }
  }

  /** A sequence that agrees with `t` before `j`, holds `x` at `j` and
      agrees with `t` shifted by one after `j` is `t` with `x` put at `j`. */
  lemma Reassemble(s: seq<PredictionResult>, t: seq<PredictionResult>, x: PredictionResult, j: nat)
    requires j <= |t| && |s| == |t| + 1
    requires forall k :: 0 <= k < j ==> s[k] == t[k]
    requires s[j] == x
    requires forall k {:trigger s[k]} :: j < k < |s| ==> s[k] == t[k - 1]
    ensures s == t[..j] + [x] + t[j..]
  {
  }

  /** Exchanges `a[j - 1]` and `a[j]`. */
  method SwapDown(a: array<PredictionResult>, j: nat)
    requires 0 < j < a.Length
    modifies a
    ensures a[j - 1] == old(a[j]) && a[j] == old(a[j - 1])
    ensures forall k :: 0 <= k < a.Length && k != j - 1 && k != j ==> a[k] == old(a[k])
  {
    a[j - 1], a[j] := a[j], a[j - 1];
  }

  /** One pass of the insertion sort: `a[i]` sinks into the sorted prefix
      `a[..i]`, swapping past every strictly less probable element. */
  method InsertInPlace(a: array<PredictionResult>, i: nat)
    requires i < a.Length
    modifies a
    ensures a[..i + 1] == Insert(old(a[..i]), old(a[i]))
    ensures forall k :: i < k < a.Length ==> a[k] == old(a[k])
  {
    ghost var t := a[..i];
    var x := a[i];
    var j := i;
    while j > 0 && a[j - 1].probability < x.probability
      invariant 0 <= j <= i
      invariant forall k :: 0 <= k < j ==> a[k] == t[k]
      invariant a[j] == x
      invariant forall k {:trigger a[k]} :: j < k <= i ==> a[k] == t[k - 1]
      invariant forall k :: i < k < a.Length ==> a[k] == old(a[k])
      invariant forall k :: j <= k < i ==> t[k].probability < x.probability
    {
      SwapDown(a, j);
      j := j - 1;
    }
    InsertPlacesAt(t, x, j);
    Reassemble(a[..i + 1], t, x, j);
  }

  /** `predictions.sort(...)` in place on the array the model returned. */
  method SortInPlace(a: array<PredictionResult>)
    modifies a
    ensures a[..] == SortByProbability(old(a[..]))
  {
    var i := 0;
    while i < a.Length
      invariant 0 <= i <= a.Length
      invariant a[..i] == SortByProbability(old(a[..])[..i])
      invariant forall k :: i <= k < a.Length ==> a[k] == old(a[k])
    {
      assert old(a[..])[..i + 1] == old(a[..])[..i] + [a[i]];
      InsertInPlace(a, i);
      i := i + 1;
    }
    assert old(a[..])[..a.Length] == old(a[..]);
  }

  /** The best prediction: the first one, or nothing for an empty list. On a
      ranked list it is a most probable one. */
  function GetTopPrediction(predictions: seq<PredictionResult>): (r: Option<PredictionResult>)
    ensures r.None? <==> predictions == []
    ensures predictions != [] ==> r == Some(predictions[0])
    ensures r.Some? ==> r.value in predictions
    ensures r.Some? && SortedByProbability(predictions) ==>
      forall p | p in predictions :: p.probability <= r.value.probability
  {
    if predictions == [] then None else Some(predictions[0])
  }

  /** What `predictImage` yields: the load error when the model is absent
      and cannot be loaded, the prediction error when `predict` throws, and
      otherwise the model's predictions ranked. */
  function PredictOutcome(model: Option<TmModel>, host: Host, predicted: Option<seq<PredictionResult>>)
    : (r: Result<seq<PredictionResult>>)
    ensures LoadResult(model, host).Failure? ==> r == Failure(LoadResult(model, host).error)
    ensures LoadResult(model, host).Success? && predicted.None? ==> r == Failure(PredictFailedMessage)
    ensures r.Success? <==> LoadResult(model, host).Success? && predicted.Some?
  {
    match LoadResult(model, host)
    case Failure(e) => Failure(e)
    case Success(_) =>
      match predicted
      case None => Failure(PredictFailedMessage)
      case Some(ps) => Success(SortByProbability(ps))
  }

  /** What `predictImage` returns on success is the model's predictions,
      reordered by non-increasing probability. */
  lemma PredictionsAreRanked(model: Option<TmModel>, host: Host, predicted: Option<seq<PredictionResult>>)
    requires PredictOutcome(model, host, predicted).Success?
    ensures var r := PredictOutcome(model, host, predicted).value;
      multiset(r) == multiset(predicted.value) && SortedByProbability(r)
  {
    SortIsOrderedPermutation(predicted.value);
  }

  /** The module-level `model` slot and the two calls that use it. */
  class ClassifierService {
    var model: Option<TmModel>

    constructor ()
      ensures model == None
    {
      model := None;
    }

    /** `loadModel`: returns at once when a model is held; otherwise needs
        the library, then loads, keeping the model only on success. */
    method LoadModel(host: Host) returns (r: Result<()>)
      modifies this
      ensures model == ModelAfterLoad(old(model), host)
      ensures r == LoadResult(old(model), host)
    {
      if model.Some? {
        return Success(());
      }
      if !host.tmImagePresent {
        return Failure(LibraryMissingMessage);
      }
      if host.loadSucceeds {
        model := Some(LoadedModel);
        r := Success(());
      } else {
        r := Failure(LoadFailedMessage);
      }
    }

    /** `predictImage`: loads the model first when it is absent (a load
        error propagates as is), asks the model to predict (`predicted` is
        what that call yields, `None` when it throws) and sorts the returned
        array in place by descending probability. */
    method PredictImage(host: Host, predicted: Option<seq<PredictionResult>>)
      returns (r: Result<seq<PredictionResult>>)
      modifies this
      ensures model == ModelAfterLoad(old(model), host)
      ensures r == PredictOutcome(old(model), host, predicted)
    {
      if model.None? {
        var loaded := LoadModel(host);
        if loaded.Failure? {
          return Failure(loaded.error);
        }
      }
      if predicted.None? {
        return Failure(PredictFailedMessage);
      }
      var ps := predicted.value;
      var a := new PredictionResult[|ps|](i requires 0 <= i < |ps| => ps[i]);
      assert a[..] == ps;
      SortInPlace(a);
      r := Success(a[..]);
    }
  }
}
