/**
 * Normalisation of a directory search's result stream (index.js:182-210). The stream carries
 * SearchResultEntry and SearchResultReference messages (section 4.5.2 of RFC 4511) and ends
 * with either the end of the search or an error.
 */
module Search {

  /** One attribute of a raw entry: its type and its values, in the server's order. */
  datatype Attribute = Attribute(attrType: string, vals: seq<string>)

  /** An entry as the directory client delivers it. */
  datatype RawEntry = RawEntry(objectName: string, attributes: seq<Attribute>)

  /** An entry as the facade hands it back: attributes keyed by type. */
  datatype SearchEntry = SearchEntry(objectName: string, attributes: map<string, seq<string>>)

  datatype SearchReference = SearchReference(uris: seq<string>)

  datatype Message =
    | EntryMessage(entry: RawEntry)
    | ReferenceMessage(reference: SearchReference)

  datatype Termination = End | StreamError(cause: string)

  datatype Stream = Stream(messages: seq<Message>, termination: Termination)

  /** The aggregate the query callback receives; the source names the reference list `referencies`. */
  datatype Data = Data(entries: seq<SearchEntry>, referencies: seq<SearchReference>)

  datatype Outcome = Completed(data: Data) | Errored(cause: string, partial: Data)

  /** `att.type && att.vals && att.vals.length > 0`: the attribute makes it into the map. */
  predicate Kept(a: Attribute) {
    a.attrType != "" && |a.vals| > 0
  }

  /** The attribute map built by walking the list in order; a later type overwrites an earlier one. */
  function Flatten(attrs: seq<Attribute>): map<string, seq<string>>
    decreases |attrs|
  {
    if attrs == [] then map[]
    else
      var last := attrs[|attrs| - 1];
      var before := Flatten(attrs[..|attrs| - 1]);
      if Kept(last) then before[last.attrType := last.vals] else before
  }

  /** `i` is the last kept attribute of type `k`. */
  predicate LastOfType(attrs: seq<Attribute>, k: string, i: int) {
    && 0 <= i < |attrs|
    && Kept(attrs[i]) && attrs[i].attrType == k
    && forall j :: i < j < |attrs| ==> !(Kept(attrs[j]) && attrs[j].attrType == k)
  }

  /**
   * The flattened map holds exactly the types of the kept attributes, and each maps to the
   * values of the last kept attribute of that type.
   */
  lemma {:induction false} FlattenHoldsLastKept(attrs: seq<Attribute>, k: string)
    ensures k in Flatten(attrs) <==> exists i :: 0 <= i < |attrs| && Kept(attrs[i]) && attrs[i].attrType == k
    ensures k in Flatten(attrs) ==> exists i :: LastOfType(attrs, k, i) && Flatten(attrs)[k] == attrs[i].vals
    decreases |attrs|
  {
    if attrs != [] {
      var n := |attrs| - 1;
      var init := attrs[..n];
      FlattenHoldsLastKept(init, k);
      assert forall i :: 0 <= i < n ==> init[i] == attrs[i];
      if Kept(attrs[n]) && attrs[n].attrType == k {
        assert LastOfType(attrs, k, n);
      } else if k in Flatten(init) {
        var i :| LastOfType(init, k, i) && Flatten(init)[k] == init[i].vals;
        assert LastOfType(attrs, k, i);
      }
    }
  }

  /** No attribute in the result has an empty value list, and none has an empty type. */
  lemma {:induction false} FlattenDropsEmpty(attrs: seq<Attribute>)
    ensures forall k :: k in Flatten(attrs) ==> k != "" && |Flatten(attrs)[k]| > 0
    decreases |attrs|
  {
    if attrs != [] {
      FlattenDropsEmpty(attrs[..|attrs| - 1]);
    }
  }

  /** The 'searchEntry' handler's attribute loop. */
  method FlattenAttributes(attrs: seq<Attribute>) returns (atts: map<string, seq<string>>)
    ensures atts == Flatten(attrs)
  {
    atts := map[];
    if |attrs| > 0 {
      var i := 0;
      while i < |attrs|
        invariant 0 <= i <= |attrs|
        invariant atts == Flatten(attrs[..i])
      {
        assert attrs[..i + 1][..i] == attrs[..i];
        if attrs[i].attrType != "" && |attrs[i].vals| > 0 {
          atts := atts[attrs[i].attrType := attrs[i].vals];
        }
        i := i + 1;
      }
      assert attrs[..i] == attrs;
    }
  }

  /** An entry with its attribute list replaced by the flattened map. */
  function Normalize(e: RawEntry): SearchEntry {
    SearchEntry(e.objectName, Flatten(e.attributes))
  }

  /** The data accumulated from `msgs`, handled in arrival order. */
  function Collected(msgs: seq<Message>): Data
    decreases |msgs|
  {
    if msgs == [] then Data([], [])
    else
      var d := Collected(msgs[..|msgs| - 1]);
      match msgs[|msgs| - 1]
      case EntryMessage(e) => Data(d.entries + [Normalize(e)], d.referencies)
      case ReferenceMessage(r) => Data(d.entries, d.referencies + [r])
  }

  /** What the query callback is called with once the stream terminates. */
  function StreamOutcome(s: Stream): Outcome {
    match s.termination
    case End => Completed(Collected(s.messages))
    case StreamError(c) => Errored(c, Collected(s.messages))
  }

  /** Accumulation is in arrival order: a later batch lands after an earlier one in both lists. */
  lemma {:induction false} CollectedAppends(a: seq<Message>, b: seq<Message>)
    ensures Collected(a + b).entries == Collected(a).entries + Collected(b).entries
    ensures Collected(a + b).referencies == Collected(a).referencies + Collected(b).referencies
    decreases |b|
  {
    if b == [] {
      assert a + b == a;
    } else {
      var n := |b| - 1;
      assert (a + b)[..|a + b| - 1] == a + b[..n];
      CollectedAppends(a, b[..n]);
    }
  }

  /** Every message is kept: one entry per entry message, one reference per reference message. */
  lemma {:induction false} CollectedKeepsEveryMessage(msgs: seq<Message>)
    ensures |Collected(msgs).entries| + |Collected(msgs).referencies| == |msgs|
    decreases |msgs|
  {
    if msgs != [] {
      CollectedKeepsEveryMessage(msgs[..|msgs| - 1]);
    }
  }

  /** The 'searchEntry', 'searchReference', 'error' and 'end' handlers run over the stream. */
  method CollectResults(s: Stream) returns (r: Outcome)
    ensures r == StreamOutcome(s)
  {
    var entries: seq<SearchEntry> := [];
    var referencies: seq<SearchReference> := [];
    var i := 0;
    while i < |s.messages|
      invariant 0 <= i <= |s.messages|
      invariant Data(entries, referencies) == Collected(s.messages[..i])
    {
      assert s.messages[..i + 1][..i] == s.messages[..i];
      match s.messages[i] {
        case EntryMessage(e) =>
          var atts := FlattenAttributes(e.attributes);
          entries := entries + [SearchEntry(e.objectName, atts)];
        case ReferenceMessage(ref) =>
          referencies := referencies + [ref];
      }
      i := i + 1;
    }
    assert s.messages[..i] == s.messages;
    match s.termination
    case End => r := Completed(Data(entries, referencies));
    case StreamError(c) => r := Errored(c, Data(entries, referencies));
  }
}
