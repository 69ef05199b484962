/**
 The redacted deep copy of an object graph, cycles and sharing included. Objects live at addresses in
 a heap; the copy allocates new ones, fills them while it recurs and remembers them in `seen`.
 */
module Redaction {
  import opened Sets
  import opened Wrappers
  import Luhn

  type Ref = nat

  /** A JavaScript value: a string, a pointer, or any other primitive, kept as it is. */
  datatype Value = Text(text: string) | Pointer(ref: Ref) | Undefined | Primitive(id: int)

  /** What an object holds: an array's items, a plain object's enumerable fields, an Error's parts, a Date's time. */
  datatype Body =
    | Items(items: seq<Value>)
    | Fields(fields: map<string, Value>)
    | Failure(name: string, message: string, stack: Option<string>, own: map<string, Value>)
    | Moment(time: int)

  type Heap = map<Ref, Body>
  type Seen = map<Ref, Ref>

  /** redactString(): the masking of free text, a function of the text. */
  type TextRule = string -> string

  const REDACTED_SECRET := "[REDACTED]"

  // ---------- which keys hide what ----------

  function Lower(c: char): char {
    if 'A' <= c <= 'Z' then c - 'A' + 'a' else c
  }

  function LowerAll(s: string): string {
    seq(|s|, i requires 0 <= i < |s| => Lower(s[i]))
  }

  predicate IsRedactedKey(key: string) {
    LowerAll(key) in {"apikey", "api_key"}
  }

  predicate IsMaskedKey(key: string) {
    LowerAll(key) in {"cardnumber", "card_number", "pan"}
  }

  /** The field is replaced by its key alone, without looking into its value. */
  predicate Hides(key: string, v: Value) {
    IsRedactedKey(key) || (IsMaskedKey(key) && v.Text?)
  }

  function HiddenAs(key: string, v: Value): Value
    requires Hides(key, v)
  {
    if IsRedactedKey(key) then Text(REDACTED_SECRET) else Text(Luhn.MaskCardValue(v.text))
  }

  // ---------- graphs ----------

  predicate Within(v: Value, graph: set<Ref>) {
    v.Pointer? ==> v.ref in graph
  }

  predicate BodyWithin(b: Body, graph: set<Ref>) {
    match b
    case Items(items) => forall v | v in items :: Within(v, graph)
    case Fields(fields) => forall k | k in fields :: Within(fields[k], graph)
    case Failure(_, _, _, own) => forall k | k in own :: Within(own[k], graph)
    case Moment(_) => true
  }

  /** A finite graph: every pointer out of it leads back into it. */
  predicate Closed(heap: Heap, graph: set<Ref>) {
    forall r | r in graph :: r in heap && BodyWithin(heap[r], graph)
  }

  // ---------- the copy's relation to the original ----------

  /** w stands for v: strings by the rule, Dates by a copy of their own, other objects by their one clone. */
  predicate Mirrors(heap: Heap, v: Value, w: Value, seen: Seen, rule: TextRule, graph: set<Ref>) {
    match v
    case Text(s) => w == Text(rule(s))
    case Pointer(r) =>
      if r in heap && heap[r].Moment? then w.Pointer? && w.ref in heap && heap[w.ref] == heap[r] && w.ref !in graph
      else r in seen && w == Pointer(seen[r])
    case _ => w == v
  }

  predicate FieldMirrors(heap: Heap, key: string, v: Value, w: Value, seen: Seen, rule: TextRule, graph: set<Ref>) {
    if Hides(key, v) then w == HiddenAs(key, v) else Mirrors(heap, v, w, seen, rule, graph)
  }

  predicate ItemsMirror(heap: Heap, items: seq<Value>, copies: seq<Value>, seen: Seen, rule: TextRule, graph: set<Ref>)
  {
    |copies| == |items| && forall i | 0 <= i < |items| :: Mirrors(heap, items[i], copies[i], seen, rule, graph)
  }

  predicate FieldsMirror(heap: Heap, fields: map<string, Value>, copies: map<string, Value>, seen: Seen, rule: TextRule,
                         graph: set<Ref>)
  {
    copies.Keys == fields.Keys && forall k | k in fields ::
      FieldMirrors(heap, k, fields[k], copies[k], seen, rule, graph)
  }

  function ErrorParts(b: Body, rule: TextRule): map<string, Value>
    requires b.Failure?
  {
    map["name" := Text(b.name), "message" := Text(rule(b.message)),
        "stack" := if b.stack.None? then Undefined else Text(rule(b.stack.value))]
  }

  /** An Error's copy is a plain object of its three parts, overlaid with its own fields under no key rule. */
  predicate ErrorMirrors(heap: Heap, b: Body, copies: map<string, Value>, done: set<string>, seen: Seen, rule: TextRule,
                         graph: set<Ref>)
    requires b.Failure? && done <= b.own.Keys
  {
    && copies.Keys == ErrorParts(b, rule).Keys + done
    && (forall k | k in done :: Mirrors(heap, b.own[k], copies[k], seen, rule, graph))
    && (forall k | k in ErrorParts(b, rule) && k !in done :: copies[k] == ErrorParts(b, rule)[k])
  }

  /** The clone of r is finished. */
  predicate Cloned(heap: Heap, r: Ref, seen: Seen, rule: TextRule, graph: set<Ref>) {
    && r in heap && r in seen && seen[r] in heap
    && var b, c := heap[r], heap[seen[r]];
       match b
       case Items(items) => c.Items? && ItemsMirror(heap, items, c.items, seen, rule, graph)
       case Fields(fields) => c.Fields? && FieldsMirror(heap, fields, c.fields, seen, rule, graph)
       case Failure(_, _, _, own) => c.Fields? && ErrorMirrors(heap, b, c.fields, own.Keys, seen, rule, graph)
       case Moment(_) => false
  }

  predicate Extends<V(==)>(before: map<Ref, V>, after: map<Ref, V>) {
    forall r | r in before :: r in after && after[r] == before[r]
  }

  /** More heap and more memory do not unmake a mirror. */
  lemma MirrorsStays(heap: Heap, later: Heap, v: Value, w: Value, seen: Seen, known: Seen, rule: TextRule,
                     graph: set<Ref>)
    requires Mirrors(heap, v, w, seen, rule, graph) && Extends(heap, later) && Extends(seen, known)
    requires Closed(heap, graph) && Within(v, graph)
    ensures Mirrors(later, v, w, known, rule, graph)
  {
  }

  /** Different objects have different clones, all of them new. */
  predicate Faithful(heap: Heap, graph: set<Ref>, seen: Seen) {
    && seen.Keys <= graph
    && (forall r | r in seen ::
          r in heap && seen[r] in heap && seen[r] !in graph && !heap[r].Moment? && !heap[seen[r]].Moment?)
    && (forall r, q | r in seen && q in seen && seen[r] == seen[q] :: r == q)
  }

  lemma ClonedStays(heap: Heap, later: Heap, r: Ref, seen: Seen, known: Seen, rule: TextRule, graph: set<Ref>)
    requires Cloned(heap, r, seen, rule, graph) && Extends(heap, later) && Extends(seen, known)
    requires Closed(heap, graph) && r in graph
    ensures Cloned(later, r, known, rule, graph)
  {
    var b, c := heap[r], heap[seen[r]];
    assert later[r] == b && later[known[r]] == c && BodyWithin(b, graph);
    match b
    case Items(items) =>
      forall i | 0 <= i < |items|
        ensures Mirrors(later, items[i], c.items[i], known, rule, graph)
      {
        assert items[i] in items;
        MirrorsStays(heap, later, items[i], c.items[i], seen, known, rule, graph);
      }
    case Fields(fields) =>
      forall k | k in fields
        ensures FieldMirrors(later, k, fields[k], c.fields[k], known, rule, graph)
      {
        assert FieldMirrors(heap, k, fields[k], c.fields[k], seen, rule, graph);
        if !Hides(k, fields[k]) {
          MirrorsStays(heap, later, fields[k], c.fields[k], seen, known, rule, graph);
        }
      }
    case Failure(_, _, _, own) =>
      forall k | k in own
        ensures Mirrors(later, own[k], c.fields[k], known, rule, graph)
      {
        MirrorsStays(heap, later, own[k], c.fields[k], seen, known, rule, graph);
      }
  }

  /** Filling in a clone still under way. */
  lemma MirrorsThroughFill(heap: Heap, clone: Ref, b: Body, v: Value, w: Value, seen: Seen, rule: TextRule,
                           graph: set<Ref>)
    requires clone in heap && !heap[clone].Moment? && clone !in graph && Closed(heap, graph) && Within(v, graph)
    requires Mirrors(heap, v, w, seen, rule, graph)
    ensures Mirrors(heap[clone := b], v, w, seen, rule, graph)
  {
  }

  lemma ClonedThroughFill(heap: Heap, clone: Ref, b: Body, r: Ref, seen: Seen, rule: TextRule, graph: set<Ref>)
    requires clone in heap && !heap[clone].Moment? && clone !in graph && Closed(heap, graph)
    requires Cloned(heap, r, seen, rule, graph) && r in graph && seen[r] != clone
    ensures Cloned(heap[clone := b], r, seen, rule, graph)
  {
    var later := heap[clone := b];
    var body, c := heap[r], heap[seen[r]];
    assert later[r] == body && later[seen[r]] == c && BodyWithin(body, graph);
    match body
    case Items(items) =>
      forall i | 0 <= i < |items|
        ensures Mirrors(later, items[i], c.items[i], seen, rule, graph)
      {
        assert items[i] in items;
        MirrorsThroughFill(heap, clone, b, items[i], c.items[i], seen, rule, graph);
      }
    case Fields(fields) =>
      forall k | k in fields
        ensures FieldMirrors(later, k, fields[k], c.fields[k], seen, rule, graph)
      {
        assert FieldMirrors(heap, k, fields[k], c.fields[k], seen, rule, graph);
        if !Hides(k, fields[k]) {
          MirrorsThroughFill(heap, clone, b, fields[k], c.fields[k], seen, rule, graph);
        }
      }
    case Failure(_, _, _, own) =>
      forall k | k in own
        ensures Mirrors(later, own[k], c.fields[k], seen, rule, graph)
      {
        MirrorsThroughFill(heap, clone, b, own[k], c.fields[k], seen, rule, graph);
      }
  }

  // ---------- the copy itself ----------

  /** Nothing that was there has changed, and every object met since has its finished clone. */
  ghost predicate Copied(heap: Heap, seen: Seen, later: Heap, known: Seen, rule: TextRule, graph: set<Ref>) {
    Extends(heap, later) && Extends(seen, known)
      && forall r | r in known && r !in seen :: Cloned(later, r, known, rule, graph)
  }

  /** As Copied, but for r, whose clone is being filled. */
  ghost predicate Filling(heap: Heap, seen: Seen, later: Heap, known: Seen, r: Ref, clone: Ref, rule: TextRule,
                          graph: set<Ref>)
  {
    && Extends(heap, later) && clone !in heap && clone in later
    && Extends(seen, known) && r !in seen && r in known && known[r] == clone
    && forall q | q in known && q !in seen && q != r :: Cloned(later, q, known, rule, graph)
  }

  ghost predicate Ready(heap: Heap, graph: set<Ref>, seen: Seen, next: Ref) {
    Closed(heap, graph) && Faithful(heap, graph, seen) && forall r | r in heap :: r < next
  }

  lemma StillReady(heap: Heap, graph: set<Ref>, seen: Seen, next: Ref, clone: Ref, b: Body)
    requires Ready(heap, graph, seen, next) && clone in heap && clone !in graph && !b.Moment?
    ensures Ready(heap[clone := b], graph, seen, next)
  {
    assert forall r | r in graph :: heap[clone := b][r] == heap[r];
  }

  /** A recursive call in the middle of a filling, and the clone's next field after it. */
  lemma FillOn(heap: Heap, seen: Seen, before: Heap, known: Seen, after: Heap, now: Seen, r: Ref, clone: Ref, b: Body,
               rule: TextRule, graph: set<Ref>)
    requires Filling(heap, seen, before, known, r, clone, rule, graph) && Copied(before, known, after, now, rule, graph)
    requires Closed(before, graph) && Closed(after, graph) && Faithful(after, graph, now)
    requires r in graph && !before[clone].Moment?
    ensures Filling(heap, seen, after[clone := b], now, r, clone, rule, graph)
  {
    forall q | q in now && q !in seen && q != r
      ensures Cloned(after[clone := b], q, now, rule, graph)
    {
      if q in known {
        ClonedStays(before, after, q, known, now, rule, graph);
      }
      ClonedThroughFill(after, clone, b, q, now, rule, graph);
    }
  }

  /** Copies made before the call mirror on after it and after the clone's next filling. */
  lemma MirrorsOn(before: Heap, known: Seen, after: Heap, now: Seen, clone: Ref, b: Body, v: Value, w: Value,
                  rule: TextRule, graph: set<Ref>)
    requires Mirrors(before, v, w, known, rule, graph) && Extends(before, after) && Extends(known, now)
    requires Closed(before, graph) && Closed(after, graph) && Within(v, graph)
    requires clone in before && !before[clone].Moment? && clone !in graph
    ensures Mirrors(after[clone := b], v, w, now, rule, graph)
  {
    MirrorsStays(before, after, v, w, known, now, rule, graph);
    MirrorsThroughFill(after, clone, b, v, w, now, rule, graph);
  }

  lemma FieldMirrorsOn(before: Heap, known: Seen, after: Heap, now: Seen, clone: Ref, b: Body, k: string, v: Value,
                       w: Value, rule: TextRule, graph: set<Ref>)
    requires FieldMirrors(before, k, v, w, known, rule, graph) && Extends(before, after) && Extends(known, now)
    requires Closed(before, graph) && Closed(after, graph) && Within(v, graph)
    requires clone in before && !before[clone].Moment? && clone !in graph
    ensures FieldMirrors(after[clone := b], k, v, w, now, rule, graph)
  {
    if !Hides(k, v) {
      MirrorsOn(before, known, after, now, clone, b, v, w, rule, graph);
    }
  }

  lemma FieldsMirrorOn(before: Heap, known: Seen, after: Heap, now: Seen, clone: Ref, b: Body,
                       fields: map<string, Value>, copies: map<string, Value>, done: set<string>, key: string, w: Value,
                       rule: TextRule, graph: set<Ref>)
    requires done <= fields.Keys && copies.Keys == done && key in fields
             && forall k | k in fields :: Within(fields[k], graph)
    requires forall k | k in done :: FieldMirrors(before, k, fields[k], copies[k], known, rule, graph)
    requires FieldMirrors(after, key, fields[key], w, now, rule, graph) && Extends(before, after) && Extends(known, now)
    requires Closed(before, graph) && Closed(after, graph)
    requires clone in before && !before[clone].Moment? && clone !in graph
    ensures forall k | k in done + {key} ::
              FieldMirrors(after[clone := b], k, fields[k], copies[key := w][k], now, rule, graph)
  {
    forall k | k in done + {key}
      ensures FieldMirrors(after[clone := b], k, fields[k], copies[key := w][k], now, rule, graph)
    {
      if k != key {
        FieldMirrorsOn(before, known, after, now, clone, b, k, fields[k], copies[k], rule, graph);
      } else if !Hides(key, fields[key]) {
        MirrorsThroughFill(after, clone, b, fields[key], w, now, rule, graph);
      }
    }
  }

  lemma ItemsMirrorOn(before: Heap, known: Seen, after: Heap, now: Seen, clone: Ref, b: Body,
                      items: seq<Value>, copies: seq<Value>, v: Value, w: Value, rule: TextRule, graph: set<Ref>)
    requires ItemsMirror(before, items, copies, known, rule, graph) && Mirrors(after, v, w, now, rule, graph)
    requires Extends(before, after) && Extends(known, now) && Closed(before, graph) && Closed(after, graph)
    requires (forall x | x in items :: Within(x, graph)) && Within(v, graph)
    requires clone in before && !before[clone].Moment? && clone !in graph
    ensures ItemsMirror(after[clone := b], items + [v], copies + [w], now, rule, graph)
  {
    forall i | 0 <= i < |items|
      ensures Mirrors(after[clone := b], items[i], copies[i], now, rule, graph)
    {
      assert items[i] in items;
      MirrorsOn(before, known, after, now, clone, b, items[i], copies[i], rule, graph);
    }
    MirrorsThroughFill(after, clone, b, v, w, now, rule, graph);
  }

  /** An array's clone with its first i items in. */
  ghost predicate ArrayFilling(heap: Heap, seen: Seen, later: Heap, known: Seen, next: Ref, r: Ref, clone: Ref, i: nat,
                               rule: TextRule, graph: set<Ref>)
  {
    && Ready(later, graph, known, next) && Filling(heap, seen, later, known, r, clone, rule, graph)
    && r in graph && later[r].Items? && later[clone].Items? && i <= |later[r].items|
    && ItemsMirror(later, later[r].items[..i], later[clone].items, known, rule, graph)
  }

  /** A plain object's clone with the fields under these keys in. */
  ghost predicate ObjectFilling(heap: Heap, seen: Seen, later: Heap, known: Seen, next: Ref, r: Ref, clone: Ref,
                                done: set<string>, rule: TextRule, graph: set<Ref>)
  {
    && Ready(later, graph, known, next) && Filling(heap, seen, later, known, r, clone, rule, graph)
    && r in graph && later[r].Fields? && later[clone].Fields? && done <= later[r].fields.Keys
    && later[clone].fields.Keys == done
    && forall k | k in done :: FieldMirrors(later, k, later[r].fields[k], later[clone].fields[k], known, rule, graph)
  }

  lemma ObjectStart(heap: Heap, seen: Seen, later: Heap, known: Seen, next: Ref, r: Ref, clone: Ref, rule: TextRule,
                    graph: set<Ref>)
    requires Ready(later, graph, known, next) && Filling(heap, seen, later, known, r, clone, rule, graph)
    requires r in graph && later[r].Fields? && later[clone] == Fields(map[])
    ensures ObjectFilling(heap, seen, later, known, next, r, clone, {}, rule, graph)
  {
  }

  lemma ObjectStep(heap: Heap, seen: Seen, before: Heap, known: Seen, was: Ref, after: Heap, now: Seen, next: Ref,
                   r: Ref, clone: Ref, done: set<string>, key: string, w: Value, rule: TextRule, graph: set<Ref>)
    requires ObjectFilling(heap, seen, before, known, was, r, clone, done, rule, graph) && key in before[r].fields
    requires Ready(after, graph, now, next) && Copied(before, known, after, now, rule, graph)
    requires FieldMirrors(after, key, before[r].fields[key], w, now, rule, graph)
    ensures after[clone] == before[clone]
    ensures ObjectFilling(heap, seen, after[clone := Fields(before[clone].fields[key := w])], now, next, r, clone,
                          done + {key}, rule, graph)
  {
    var fields, copies := before[r].fields, before[clone].fields;
    var b := Fields(copies[key := w]);
    assert BodyWithin(before[r], graph) && known[r] == clone;
    FillOn(heap, seen, before, known, after, now, r, clone, b, rule, graph);
    StillReady(after, graph, now, next, clone, b);
    FieldsMirrorOn(before, known, after, now, clone, b, fields, copies, done, key, w, rule, graph);
  }

  lemma ObjectEnd(heap: Heap, seen: Seen, later: Heap, known: Seen, next: Ref, r: Ref, clone: Ref, rule: TextRule,
                  graph: set<Ref>)
    requires r in later && later[r].Fields?
             && ObjectFilling(heap, seen, later, known, next, r, clone, later[r].fields.Keys, rule, graph)
    ensures Copied(heap, seen, later, known, rule, graph)
  {
    assert Cloned(later, r, known, rule, graph);
  }

  /** An Error's clone: its three parts, and its own fields under these keys over them. */
  ghost predicate ErrorFilling(heap: Heap, seen: Seen, later: Heap, known: Seen, next: Ref, r: Ref, clone: Ref,
                               done: set<string>, rule: TextRule, graph: set<Ref>)
  {
    && Ready(later, graph, known, next) && Filling(heap, seen, later, known, r, clone, rule, graph)
    && r in graph && later[r].Failure? && later[clone].Fields? && done <= later[r].own.Keys
    && ErrorMirrors(later, later[r], later[clone].fields, done, known, rule, graph)
  }

  lemma ErrorStart(heap: Heap, seen: Seen, later: Heap, known: Seen, next: Ref, r: Ref, clone: Ref, rule: TextRule,
                   graph: set<Ref>)
    requires Ready(later, graph, known, next) && Filling(heap, seen, later, known, r, clone, rule, graph)
    requires r in graph && later[r].Failure? && later[clone] == Fields(ErrorParts(later[r], rule))
    ensures ErrorFilling(heap, seen, later, known, next, r, clone, {}, rule, graph)
  {
  }

  lemma ErrorStep(heap: Heap, seen: Seen, before: Heap, known: Seen, was: Ref, after: Heap, now: Seen, next: Ref,
                  r: Ref, clone: Ref, done: set<string>, key: string, w: Value, rule: TextRule, graph: set<Ref>)
    requires ErrorFilling(heap, seen, before, known, was, r, clone, done, rule, graph) && key in before[r].own
    requires Ready(after, graph, now, next) && Copied(before, known, after, now, rule, graph)
    requires Mirrors(after, before[r].own[key], w, now, rule, graph)
    ensures after[clone] == before[clone]
    ensures ErrorFilling(heap, seen, after[clone := Fields(before[clone].fields[key := w])], now, next, r, clone,
                         done + {key}, rule, graph)
  {
    var own, copies := before[r].own, before[clone].fields;
    var b := Fields(copies[key := w]);
    assert BodyWithin(before[r], graph) && known[r] == clone;
    FillOn(heap, seen, before, known, after, now, r, clone, b, rule, graph);
    StillReady(after, graph, now, next, clone, b);
    forall k | k in done + {key}
      ensures Mirrors(after[clone := b], own[k], copies[key := w][k], now, rule, graph)
    {
      if k == key {
        MirrorsThroughFill(after, clone, b, own[k], w, now, rule, graph);
      } else {
        MirrorsOn(before, known, after, now, clone, b, own[k], copies[k], rule, graph);
      }
    }
  }

  lemma ErrorEnd(heap: Heap, seen: Seen, later: Heap, known: Seen, next: Ref, r: Ref, clone: Ref, rule: TextRule,
                 graph: set<Ref>)
    requires r in later && later[r].Failure?
             && ErrorFilling(heap, seen, later, known, next, r, clone, later[r].own.Keys, rule, graph)
    ensures Copied(heap, seen, later, known, rule, graph)
  {
    assert Cloned(later, r, known, rule, graph);
  }

  /** Allocating the clone and remembering it. */
  lemma StartsFilling(heap: Heap, seen: Seen, next: Ref, r: Ref, b: Body, rule: TextRule, graph: set<Ref>)
    requires Ready(heap, graph, seen, next) && r in graph && r !in seen && !heap[r].Moment? && !b.Moment?
    ensures Ready(heap[next := b], graph, seen[r := next], next + 1)
    ensures Filling(heap, seen, heap[next := b], seen[r := next], r, next, rule, graph)
  {
    assert next !in graph;
    assert forall q | q in graph :: heap[next := b][q] == heap[q];
  }

  lemma ArrayStep(heap: Heap, seen: Seen, before: Heap, known: Seen, was: Ref, after: Heap, now: Seen, next: Ref,
                  r: Ref, clone: Ref, i: nat, w: Value, rule: TextRule, graph: set<Ref>)
    requires ArrayFilling(heap, seen, before, known, was, r, clone, i, rule, graph) && i < |before[r].items|
    requires Ready(after, graph, now, next) && Copied(before, known, after, now, rule, graph)
    requires Mirrors(after, before[r].items[i], w, now, rule, graph)
    ensures after[clone] == before[clone]
    ensures ArrayFilling(heap, seen, after[clone := Items(before[clone].items + [w])], now, next, r, clone, i + 1, rule,
                         graph)
  {
    var items, copies := before[r].items, before[clone].items;
    var b := Items(copies + [w]);
    assert BodyWithin(before[r], graph) && known[r] == clone;
    assert forall x | x in items[..i] :: x in items;
    FillOn(heap, seen, before, known, after, now, r, clone, b, rule, graph);
    StillReady(after, graph, now, next, clone, b);
    ItemsMirrorOn(before, known, after, now, clone, b, items[..i], copies, items[i], w, rule, graph);
    assert items[..i + 1] == items[..i] + [items[i]];
  }

  lemma ArrayEnd(heap: Heap, seen: Seen, later: Heap, known: Seen, next: Ref, r: Ref, clone: Ref, rule: TextRule,
                 graph: set<Ref>)
    requires r in later && later[r].Items?
             && ArrayFilling(heap, seen, later, known, next, r, clone, |later[r].items|, rule, graph)
    ensures Copied(heap, seen, later, known, rule, graph)
  {
    assert later[r].items[..|later[r].items|] == later[r].items;
    assert Cloned(later, r, known, rule, graph);
  }

  /** Meeting an object leaves fewer to meet. */
  lemma FewerUnseen(graph: set<Ref>, seen: Seen, known: Seen, r: Ref)
    requires r in graph && r !in seen && r in known && seen.Keys <= known.Keys
    ensures |graph - known.Keys| < |graph - seen.Keys|
  {
    var left, before := graph - known.Keys, graph - seen.Keys;
    assert left <= before - {r} && |before - {r}| == |before| - 1;
    SubsetSize(left, before - {r});
  }

  lemma NoMoreUnseen(graph: set<Ref>, seen: Seen, known: Seen)
    requires seen.Keys <= known.Keys
    ensures |graph - known.Keys| <= |graph - seen.Keys|
  {
    SubsetSize(graph - known.Keys, graph - seen.Keys);
  }

  ghost predicate LeftOf(keys: set<string>, done: set<string>, left: set<string>) {
    left == keys - done && done <= keys
  }

  lemma OneKeyLess(keys: set<string>, done: set<string>, left: set<string>, key: string)
    requires LeftOf(keys, done, left) && key in left
    ensures LeftOf(keys, done + {key}, left - {key})
  {
  }

  lemma NoKeyLeft(keys: set<string>, done: set<string>, left: set<string>)
    requires LeftOf(keys, done, left) && left == {}
    ensures done == keys
  {
    assert forall k | k in keys && k !in done :: k in left;
  }

  class Redactor {
    const rule: TextRule
    var heap: Heap
    var seen: Seen
    var next: Ref

    constructor (heap: Heap, next: Ref, rule: TextRule)
      ensures this.heap == heap && this.next == next && this.rule == rule && seen == map[]
    {
      this.heap, this.next, this.rule := heap, next, rule;
      seen := map[];
    }

    method Allocate(b: Body) returns (r: Ref)
      requires next !in heap
      modifies this`heap, this`next
      ensures r == old(next) && next == r + 1 && heap == old(heap)[r := b]
    {
      r := next;
      heap := heap[r := b];
      next := next + 1;
    }

    method RedactValue(v: Value, ghost graph: set<Ref>) returns (w: Value)
      requires Ready(heap, graph, seen, next) && Within(v, graph)
      modifies this
      ensures Ready(heap, graph, seen, next) && Copied(old(heap), old(seen), heap, seen, rule, graph)
      ensures Mirrors(heap, v, w, seen, rule, graph)
      decreases |graph - seen.Keys|, 1
    {
      if v.Text? {
        return Text(rule(v.text));
      }
      if !v.Pointer? {
        return v;
      }
      if v.ref in seen {
        return Pointer(seen[v.ref]);
      }
      if heap[v.ref].Moment? {
        var copy := Allocate(Moment(heap[v.ref].time));
        return Pointer(copy);
      }
      var clone;
      if heap[v.ref].Failure? {
        clone := RedactError(v.ref, graph);
      } else if heap[v.ref].Items? {
        clone := RedactArray(v.ref, graph);
      } else {
        clone := RedactObject(v.ref, graph);
      }
      w := Pointer(clone);
    }

    /** clone.push(redactValue(item, seen)). */
    method PushItem(r: Ref, clone: Ref, i: nat, ghost heap0: Heap, ghost seen0: Seen, ghost graph: set<Ref>)
      requires ArrayFilling(heap0, seen0, heap, seen, next, r, clone, i, rule, graph) && i < |heap[r].items|
      modifies this
      ensures ArrayFilling(heap0, seen0, heap, seen, next, r, clone, i + 1, rule, graph)
      ensures seen.Keys >= old(seen).Keys && heap[r] == old(heap)[r]
      decreases |graph - seen.Keys|, 2
    {
      ghost var before, known, was := heap, seen, next;
      assert heap[r].items[i] in heap[r].items && BodyWithin(heap[r], graph);
      var w := RedactValue(heap[r].items[i], graph);
      ArrayStep(heap0, seen0, before, known, was, heap, seen, next, r, clone, i, w, rule, graph);
      heap := heap[clone := Items(heap[clone].items + [w])];
    }

    /** A new clone for r, remembered before its first field is looked at. */
    method Begin(r: Ref, b: Body, ghost graph: set<Ref>) returns (clone: Ref)
      requires Ready(heap, graph, seen, next) && r in graph && r !in seen && !heap[r].Moment? && !b.Moment?
      modifies this
      ensures Ready(heap, graph, seen, next) && Filling(old(heap), old(seen), heap, seen, r, clone, rule, graph)
      ensures heap[clone] == b && heap[r] == old(heap)[r]
      ensures |graph - seen.Keys| < |graph - old(seen).Keys|
    {
      StartsFilling(heap, seen, next, r, b, rule, graph);
      clone := Allocate(b);
      seen := seen[r := clone];
      FewerUnseen(graph, old(seen), seen, r);
    }

    method RedactArray(r: Ref, ghost graph: set<Ref>) returns (clone: Ref)
      requires Ready(heap, graph, seen, next) && r in graph && r !in seen && heap[r].Items?
      modifies this
      ensures Ready(heap, graph, seen, next) && Copied(old(heap), old(seen), heap, seen, rule, graph)
      ensures r in seen && seen[r] == clone
      decreases |graph - seen.Keys|, 0
    {
      clone := Begin(r, Items([]), graph);
      ghost var items, met := heap[r].items, seen;
      for i := 0 to |heap[r].items|
        invariant ArrayFilling(old(heap), old(seen), heap, seen, next, r, clone, i, rule, graph)
        invariant heap[r] == Items(items) && met.Keys <= seen.Keys
      {
        NoMoreUnseen(graph, met, seen);
        PushItem(r, clone, i, old(heap), old(seen), graph);
      }
      ArrayEnd(old(heap), old(seen), heap, seen, next, r, clone, rule, graph);
    }

    /** One field of a plain object, by its key's rule. */
    method SetField(r: Ref, clone: Ref, key: string, ghost done: set<string>, ghost heap0: Heap, ghost seen0: Seen,
                    ghost graph: set<Ref>)
      requires ObjectFilling(heap0, seen0, heap, seen, next, r, clone, done, rule, graph) && key in heap[r].fields
      modifies this
      ensures ObjectFilling(heap0, seen0, heap, seen, next, r, clone, done + {key}, rule, graph)
      ensures seen.Keys >= old(seen).Keys && heap[r] == old(heap)[r]
      decreases |graph - seen.Keys|, 2
    {
      ghost var before, known, was := heap, seen, next;
      var fieldValue := heap[r].fields[key];
      var w;
      if IsRedactedKey(key) {
        w := Text(REDACTED_SECRET);
      } else if IsMaskedKey(key) && fieldValue.Text? {
        w := Text(Luhn.MaskCardValue(fieldValue.text));
      } else {
        assert BodyWithin(heap[r], graph);
        w := RedactValue(fieldValue, graph);
      }
      ObjectStep(heap0, seen0, before, known, was, heap, seen, next, r, clone, done, key, w, rule, graph);
      heap := heap[clone := Fields(heap[clone].fields[key := w])];
    }

    method RedactObject(r: Ref, ghost graph: set<Ref>) returns (clone: Ref)
      requires Ready(heap, graph, seen, next) && r in graph && r !in seen && heap[r].Fields?
      modifies this
      ensures Ready(heap, graph, seen, next) && Copied(old(heap), old(seen), heap, seen, rule, graph)
      ensures r in seen && seen[r] == clone
      decreases |graph - seen.Keys|, 0
    {
      clone := Begin(r, Fields(map[]), graph);
      ObjectStart(old(heap), old(seen), heap, seen, next, r, clone, rule, graph);
      ghost var fields, met := heap[r].fields, seen;
      ghost var done: set<string> := {};
      var left := heap[r].fields.Keys;
      while left != {}
        invariant LeftOf(fields.Keys, done, left)
        invariant ObjectFilling(old(heap), old(seen), heap, seen, next, r, clone, done, rule, graph)
        invariant heap[r] == Fields(fields) && met.Keys <= seen.Keys
        decreases left
      {
        var key :| key in left;
        NoMoreUnseen(graph, met, seen);
        SetField(r, clone, key, done, old(heap), old(seen), graph);
        OneKeyLess(fields.Keys, done, left, key);
        left, done := left - {key}, done + {key};
      }
      NoKeyLeft(fields.Keys, done, left);
      ObjectEnd(old(heap), old(seen), heap, seen, next, r, clone, rule, graph);
    }

    /** One own field of an Error: no key rule applies. */
    method SetOwn(r: Ref, clone: Ref, key: string, ghost done: set<string>, ghost heap0: Heap, ghost seen0: Seen,
                  ghost graph: set<Ref>)
      requires ErrorFilling(heap0, seen0, heap, seen, next, r, clone, done, rule, graph) && key in heap[r].own
      modifies this
      ensures ErrorFilling(heap0, seen0, heap, seen, next, r, clone, done + {key}, rule, graph)
      ensures seen.Keys >= old(seen).Keys && heap[r] == old(heap)[r]
      decreases |graph - seen.Keys|, 2
    {
      ghost var before, known, was := heap, seen, next;
      assert BodyWithin(heap[r], graph);
      var w := RedactValue(heap[r].own[key], graph);
      ErrorStep(heap0, seen0, before, known, was, heap, seen, next, r, clone, done, key, w, rule, graph);
      heap := heap[clone := Fields(heap[clone].fields[key := w])];
    }

    method RedactError(r: Ref, ghost graph: set<Ref>) returns (clone: Ref)
      requires Ready(heap, graph, seen, next) && r in graph && r !in seen && heap[r].Failure?
      modifies this
      ensures Ready(heap, graph, seen, next) && Copied(old(heap), old(seen), heap, seen, rule, graph)
      ensures r in seen && seen[r] == clone
      decreases |graph - seen.Keys|, 0
    {
      clone := Begin(r, Fields(ErrorParts(heap[r], rule)), graph);
      ErrorStart(old(heap), old(seen), heap, seen, next, r, clone, rule, graph);
      ghost var error, met := heap[r], seen;
      ghost var done: set<string> := {};
      var left := heap[r].own.Keys;
      while left != {}
        invariant LeftOf(error.own.Keys, done, left)
        invariant ErrorFilling(old(heap), old(seen), heap, seen, next, r, clone, done, rule, graph)
        invariant heap[r] == error && met.Keys <= seen.Keys
        decreases left
      {
        var key :| key in left;
        NoMoreUnseen(graph, met, seen);
        SetOwn(r, clone, key, done, old(heap), old(seen), graph);
        OneKeyLess(error.own.Keys, done, left, key);
        left, done := left - {key}, done + {key};
      }
      NoKeyLeft(error.own.Keys, done, left);
      ErrorEnd(old(heap), old(seen), heap, seen, next, r, clone, rule, graph);
    }
  }

  /** later holds, beside everything heap held, a copy w of v whose objects answer to seen. */
  ghost predicate IsCopy(heap: Heap, later: Heap, v: Value, w: Value, seen: Seen, rule: TextRule, graph: set<Ref>) {
    && Extends(heap, later) && Closed(later, graph) && Faithful(later, graph, seen)
    && Within(v, graph) && Mirrors(later, v, w, seen, rule, graph)
    && forall r | r in seen :: Cloned(later, r, seen, rule, graph)
  }

  /** redact(): ends on every finite graph, and touches nothing of it. */
  method Redact(heap: Heap, next: Ref, v: Value, rule: TextRule, ghost graph: set<Ref>)
    returns (later: Heap, w: Value, seen: Seen)
    requires Closed(heap, graph) && Within(v, graph) && forall r | r in heap :: r < next
    ensures IsCopy(heap, later, v, w, seen, rule, graph)
  {
    var redactor := new Redactor(heap, next, rule);
    w := redactor.RedactValue(v, graph);
    later, seen := redactor.heap, redactor.seen;
  }

  // ---------- what a reader of the copy sees ----------

  /** Two places of the original hold the same object exactly when the copy's two places do; Dates aside. */
  lemma SharingIsKept(heap: Heap, v: Value, v': Value, w: Value, w': Value, seen: Seen, rule: TextRule, graph: set<Ref>)
    requires Closed(heap, graph) && Faithful(heap, graph, seen)
    requires v.Pointer? && v'.Pointer? && Within(v, graph) && Within(v', graph)
    requires !heap[v.ref].Moment? && !heap[v'.ref].Moment?
    requires Mirrors(heap, v, w, seen, rule, graph) && Mirrors(heap, v', w', seen, rule, graph)
    ensures v == v' <==> w == w'
    ensures w.ref !in graph
  {
  }

  datatype Selector = At(index: nat) | Under(key: string)

  /** The value a path of selectors leads to, if it leads anywhere. */
  function Follow(heap: Heap, v: Value, path: seq<Selector>): Option<Value>
    decreases |path|
  {
    if path == [] then Some(v)
    else if !v.Pointer? || v.ref !in heap then None
    else
      match (heap[v.ref], path[0])
      case (Items(items), At(i)) => if i < |items| then Follow(heap, items[i], path[1..]) else None
      case (Fields(fields), Under(k)) => if k in fields then Follow(heap, fields[k], path[1..]) else None
      case (Failure(_, _, _, own), Under(k)) => if k in own then Follow(heap, own[k], path[1..]) else None
      case _ => None
  }

  /** No step of the path goes through a field its key hides, or through the three parts an Error's copy adds. */
  predicate InTheOpen(heap: Heap, v: Value, path: seq<Selector>)
    decreases |path|
  {
    path == [] || !v.Pointer? || v.ref !in heap ||
    match (heap[v.ref], path[0])
    case (Items(items), At(i)) => i < |items| ==> InTheOpen(heap, items[i], path[1..])
    case (Fields(fields), Under(k)) => k in fields ==> !Hides(k, fields[k]) && InTheOpen(heap, fields[k], path[1..])
    case (Failure(_, _, _, own), Under(k)) =>
      if k in own then InTheOpen(heap, own[k], path[1..]) else k !in {"name", "message", "stack"}
    case _ => true
  }

  /** What the paths through original and copy come to. */
  predicate Alike(heap: Heap, found: Option<Value>, copy: Option<Value>, seen: Seen, rule: TextRule, graph: set<Ref>) {
    if found.Some? then
      copy.Some? && Within(found.value, graph) && Mirrors(heap, found.value, copy.value, seen, rule, graph)
    else copy.None?
  }

  /**
   Read along any path, around cycles as often as one likes, the copy shows the image of what the
   original shows there, and nothing where the original has nothing.
   */
  lemma {:induction false} PathsAgree(heap: Heap, v: Value, w: Value, path: seq<Selector>, seen: Seen, rule: TextRule,
                                      graph: set<Ref>)
    requires Closed(heap, graph) && Faithful(heap, graph, seen) && Within(v, graph)
    requires forall r | r in seen :: Cloned(heap, r, seen, rule, graph)
    requires Mirrors(heap, v, w, seen, rule, graph) && InTheOpen(heap, v, path)
    ensures Alike(heap, Follow(heap, v, path), Follow(heap, w, path), seen, rule, graph)
    decreases |path|
  {
    if path != [] && v.Pointer? && !heap[v.ref].Moment? {
      assert Cloned(heap, v.ref, seen, rule, graph) && BodyWithin(heap[v.ref], graph);
      var b, c := heap[v.ref], heap[w.ref];
      match (b, path[0])
      case (Items(items), At(i)) =>
        if i < |items| {
          assert items[i] in items;
          PathsAgree(heap, items[i], c.items[i], path[1..], seen, rule, graph);
        }
      case (Fields(fields), Under(k)) =>
        if k in fields {
          assert FieldMirrors(heap, k, fields[k], c.fields[k], seen, rule, graph);
          PathsAgree(heap, fields[k], c.fields[k], path[1..], seen, rule, graph);
        }
      case (Failure(_, _, _, own), Under(k)) =>
        if k in own {
          PathsAgree(heap, own[k], c.fields[k], path[1..], seen, rule, graph);
        }
      case _ =>
    }
  }

  /** A string shows the text rule's image, any other primitive itself, and an object a new one of its shape. */
  predicate ShowsAs(heap: Heap, found: Value, shown: Value, rule: TextRule, graph: set<Ref>) {
    match found
    case Text(s) => shown == Text(rule(s))
    case Undefined => shown == Undefined
    case Primitive(id) => shown == Primitive(id)
    case Pointer(r) =>
      && shown.Pointer? && shown.ref !in graph && r in heap && shown.ref in heap
      && match heap[r]
         case Moment(time) => heap[shown.ref] == Moment(time)
         case Items(items) => heap[shown.ref].Items? && |heap[shown.ref].items| == |items|
         case Fields(fields) => heap[shown.ref].Fields? && heap[shown.ref].fields.Keys == fields.Keys
         case Failure(_, _, _, own) =>
           heap[shown.ref].Fields? && heap[shown.ref].fields.Keys == own.Keys + {"name", "message", "stack"}
  }

  /** What the copy shows at the end of any open path, told by the value alone. */
  lemma PlacesShow(heap: Heap, v: Value, w: Value, path: seq<Selector>, seen: Seen, rule: TextRule, graph: set<Ref>)
    requires Closed(heap, graph) && Faithful(heap, graph, seen) && Within(v, graph)
    requires forall r | r in seen :: Cloned(heap, r, seen, rule, graph)
    requires Mirrors(heap, v, w, seen, rule, graph) && InTheOpen(heap, v, path)
    ensures Follow(heap, v, path).Some? <==> Follow(heap, w, path).Some?
    ensures Follow(heap, v, path).Some? ==>
              ShowsAs(heap, Follow(heap, v, path).value, Follow(heap, w, path).value, rule, graph)
  {
    PathsAgree(heap, v, w, path, seen, rule, graph);
    var found := Follow(heap, v, path);
    if found.Some? && found.value.Pointer? && !heap[found.value.ref].Moment? {
      assert Cloned(heap, found.value.ref, seen, rule, graph);
    }
  }

  /** The fields a walk over an object's own enumerable keys finds. */
  function OwnFields(b: Body): map<string, Value> {
    match b
    case Fields(fields) => fields
    case Failure(_, _, _, own) => own
    case _ => map[]
  }

  /** The object at the end of the path has the field, and the field's key hides it. */
  predicate HoldsSecret(heap: Heap, v: Value, path: seq<Selector>, key: string) {
    && Follow(heap, v, path).Some? && Follow(heap, v, path).value.Pointer?
    && var holder := Follow(heap, v, path).value.ref;
       holder in heap && key in OwnFields(heap[holder]) && Hides(key, OwnFields(heap[holder])[key])
  }

  /** The text rule alone makes of the value what its key should have. */
  predicate HiddenAnyway(key: string, v: Value, rule: TextRule)
    requires Hides(key, v)
  {
    v.Text? && Text(rule(v.text)) == HiddenAs(key, v)
  }

  /**
   At the end of any open path, a field whose key hides it shows the mask and no more if and only if its
   holder is no Error, or the text rule by itself comes to the mask.
   */
  lemma SecretsAreHidden(heap: Heap, v: Value, w: Value, path: seq<Selector>, key: string, seen: Seen, rule: TextRule,
                         graph: set<Ref>)
    requires Closed(heap, graph) && Faithful(heap, graph, seen) && Within(v, graph)
    requires forall r | r in seen :: Cloned(heap, r, seen, rule, graph)
    requires Mirrors(heap, v, w, seen, rule, graph) && InTheOpen(heap, v, path)
    requires HoldsSecret(heap, v, path, key)
    ensures Follow(heap, w, path).Some? && Follow(heap, w, path).value.Pointer?
            && Follow(heap, w, path).value.ref in heap
    ensures var b, c := heap[Follow(heap, v, path).value.ref], heap[Follow(heap, w, path).value.ref];
            var secret := OwnFields(b)[key];
            && c.Fields? && key in c.fields
            && (c.fields[key] == HiddenAs(key, secret) <==> !b.Failure? || HiddenAnyway(key, secret, rule))
  {
    PathsAgree(heap, v, w, path, seen, rule, graph);
    var r := Follow(heap, v, path).value.ref;
    assert Cloned(heap, r, seen, rule, graph);
    var b, c := heap[r], heap[seen[r]];
    if b.Fields? {
      assert FieldMirrors(heap, key, b.fields[key], c.fields[key], seen, rule, graph);
    } else {
      assert Mirrors(heap, b.own[key], c.fields[key], seen, rule, graph);
    }
  }

  // ---------- what hidden fields show ----------

  /** The key is the name, in whatever case its letters are written; the name is in lower case. */
  predicate Spells(key: string, name: string) {
    && |key| == |name|
    && forall i | 0 <= i < |name| :: IsEither(key[i], name[i])
  }

  /** The character is the given one, or that letter's capital. */
  predicate IsEither(c: char, lower: char) {
    c == lower || ('a' <= lower <= 'z' && c as int == lower as int - 'a' as int + 'A' as int)
  }

  lemma LowerIs(c: char, lower: char)
    requires !('A' <= lower <= 'Z')
    ensures IsEither(c, lower) <==> Lower(c) == lower
  {
  }

  lemma SpellsIs(key: string, name: string)
    requires forall i | 0 <= i < |name| :: !('A' <= name[i] <= 'Z')
    ensures Spells(key, name) <==> LowerAll(key) == name
  {
    if |key| == |name| {
      forall i | 0 <= i < |name|
        ensures IsEither(key[i], name[i]) <==> LowerAll(key)[i] == name[i]
      {
        LowerIs(key[i], name[i]);
      }
    }
  }

  predicate SpellsSecret(key: string) {
    Spells(key, "apikey") || Spells(key, "api_key")
  }

  predicate SpellsCard(key: string) {
    Spells(key, "cardnumber") || Spells(key, "card_number") || Spells(key, "pan")
  }

  lemma SpellingDecides(key: string)
    ensures IsRedactedKey(key) <==> SpellsSecret(key)
    ensures IsMaskedKey(key) <==> SpellsCard(key)
  {
    SpellsIs(key, "apikey");
    SpellsIs(key, "api_key");
    SpellsIs(key, "cardnumber");
    SpellsIs(key, "card_number");
    SpellsIs(key, "pan");
  }

  /** The copy of a plain object, at the end of an open path. */
  lemma CopyOfHolder(heap: Heap, v: Value, w: Value, path: seq<Selector>, key: string, seen: Seen, rule: TextRule,
                     graph: set<Ref>) returns (field: Value, shown: Value)
    requires Closed(heap, graph) && Faithful(heap, graph, seen) && Within(v, graph)
    requires forall r | r in seen :: Cloned(heap, r, seen, rule, graph)
    requires Mirrors(heap, v, w, seen, rule, graph) && InTheOpen(heap, v, path)
    requires Follow(heap, v, path).Some? && Follow(heap, v, path).value.Pointer?
             && Follow(heap, v, path).value.ref in heap
    requires var b := heap[Follow(heap, v, path).value.ref]; b.Fields? && key in b.fields
    ensures Follow(heap, w, path).Some? && Follow(heap, w, path).value.Pointer?
            && Follow(heap, w, path).value.ref in heap
    ensures var b, c := heap[Follow(heap, v, path).value.ref], heap[Follow(heap, w, path).value.ref];
            && c.Fields? && key in c.fields && field == b.fields[key] && shown == c.fields[key]
            && FieldMirrors(heap, key, field, shown, seen, rule, graph)
  {
    PathsAgree(heap, v, w, path, seen, rule, graph);
    var r := Follow(heap, v, path).value.ref;
    assert Cloned(heap, r, seen, rule, graph);
    field, shown := heap[r].fields[key], heap[seen[r]].fields[key];
    assert FieldMirrors(heap, key, heap[r].fields[key], heap[seen[r]].fields[key], seen, rule, graph);
  }

  /**
   In the copy of any plain object, apiKey and api_key show [REDACTED] whatever they held. A text under
   cardNumber, card_number or pan shows as many characters as it has digits: its last four digits, and
   '*' for the rest. Every other field shows its value's image. Letter case does not matter.
   */
  lemma FieldsShow(heap: Heap, v: Value, w: Value, path: seq<Selector>, key: string, seen: Seen, rule: TextRule,
                   graph: set<Ref>) returns (field: Value, shown: Value, at: seq<nat>)
    requires Closed(heap, graph) && Faithful(heap, graph, seen) && Within(v, graph)
    requires forall r | r in seen :: Cloned(heap, r, seen, rule, graph)
    requires Mirrors(heap, v, w, seen, rule, graph) && InTheOpen(heap, v, path)
    requires Follow(heap, v, path).Some? && Follow(heap, v, path).value.Pointer?
             && Follow(heap, v, path).value.ref in heap
    requires var b := heap[Follow(heap, v, path).value.ref]; b.Fields? && key in b.fields
    ensures Follow(heap, w, path).Some? && Follow(heap, w, path).value.Pointer?
            && Follow(heap, w, path).value.ref in heap
    ensures var b, c := heap[Follow(heap, v, path).value.ref], heap[Follow(heap, w, path).value.ref];
            c.Fields? && key in c.fields && field == b.fields[key] && shown == c.fields[key]
    ensures SpellsSecret(key) ==> shown == Text("[REDACTED]")
    ensures SpellsCard(key) && field.Text? ==> shown.Text? && Luhn.ShowsLastFour(field.text, shown.text, at)
    ensures !SpellsSecret(key) && !(SpellsCard(key) && field.Text?) ==>
              Mirrors(heap, field, shown, seen, rule, graph)
  {
    field, shown := CopyOfHolder(heap, v, w, path, key, seen, rule, graph);
    SpellingDecides(key);
    at := [];
    if SpellsCard(key) && field.Text? {
      CardIsNoSecret(key);
      at := Luhn.CardValueShows(field.text);
    }
  }

  lemma CardIsNoSecret(key: string)
    requires SpellsCard(key)
    ensures !SpellsSecret(key)
  {
    SpellingDecides(key);
  }

  /**
   The copy of an Error: its own fields' images, whatever their keys, and, where no field of its own
   overrides them, its name as it is and its message and stack by the text rule.
   */
  lemma ErrorShows(heap: Heap, r: Ref, seen: Seen, rule: TextRule, graph: set<Ref>)
    requires Cloned(heap, r, seen, rule, graph) && heap[r].Failure?
    ensures heap[seen[r]].Fields?
    ensures var b, shown := heap[r], heap[seen[r]].fields;
            && shown.Keys == b.own.Keys + {"name", "message", "stack"}
            && (forall k | k in b.own :: Mirrors(heap, b.own[k], shown[k], seen, rule, graph))
            && ("name" !in b.own ==> shown["name"] == Text(b.name))
            && ("message" !in b.own ==> shown["message"] == Text(rule(b.message)))
            && ("stack" !in b.own ==>
                  shown["stack"] == match b.stack
                                    case None => Undefined
                                    case Some(text) => Text(rule(text)))
  {
  }

  const SECRET := Text("s3cret")
  const LEAKY := Failure("Error", "refused", None, map["apiKey" := SECRET])
  const LEAKED :=
    Fields(map["name" := Text("Error"), "message" := Text("refused"), "stack" := Undefined, "apiKey" := SECRET])

  /** An Error with a field apiKey: a rule that finds nothing to mask in these texts copies it as it is. */
  lemma ErrorShowsItsSecret(rule: TextRule)
    requires rule("refused") == "refused" && rule("s3cret") == "s3cret"
    ensures IsCopy(map[0 := LEAKY], map[0 := LEAKY, 1 := LEAKED], Pointer(0), Pointer(1), map[0 := 1], rule, {0})
    ensures Hides("apiKey", SECRET) && LEAKED.fields["apiKey"] == SECRET != HiddenAs("apiKey", SECRET)
  {
    assert LowerAll("apiKey") == "apikey";
    assert Cloned(map[0 := LEAKY, 1 := LEAKED], 0, map[0 := 1], rule, {0});
  }
}
