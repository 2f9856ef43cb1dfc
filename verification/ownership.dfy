// The owner annotation of cross-namespace RoleBindings: a comma-separated list of
// namespace/name/uid entries kept as one string (pkg/scoper/ownership.go).
module Ownership {
  import opened Strings

  datatype OwnerEntry = OwnerEntry(ns: string, name: string, uid: string)

  // ---- The format ------------------------------------------------------------------

  function EntryText(e: OwnerEntry): string {
    e.ns + ['/'] + (e.name + ['/'] + e.uid)
  }

  function EntryTexts(es: seq<OwnerEntry>): seq<string> {
    if es == [] then [] else [EntryText(es[0])] + EntryTexts(es[1..])
  }

  function Format(es: seq<OwnerEntry>): string {
    Join(EntryTexts(es), ',')
  }

  function ParseEntry(s: string): Option<OwnerEntry> {
    var parts := SplitN(s, '/', 3);
    if |parts| != 3 || parts[0] == "" || parts[1] == "" || parts[2] == "" then None
    else Some(OwnerEntry(parts[0], parts[1], parts[2]))
  }

  function ParseParts(parts: seq<string>): seq<OwnerEntry> {
    if parts == [] then []
    else
      var rest := ParseParts(parts[1..]);
      match ParseEntry(TrimSpace(parts[0]))
      case Some(e) => [e] + rest
      case None => rest
  }

  function Parse(value: string): seq<OwnerEntry> {
    if value == "" then [] else ParseParts(Split(value, ','))
  }

  // ---- The entries the format can carry ----------------------------------------------

  predicate Carried(e: OwnerEntry) {
    && e.ns != "" && e.name != "" && e.uid != ""
    && '/' !in e.ns && '/' !in e.name
    && ',' !in e.ns && ',' !in e.name && ',' !in e.uid
    && !IsSpace(e.ns[0]) && !IsSpace(e.uid[|e.uid| - 1])
  }

  predicate AllCarried(es: seq<OwnerEntry>) {
    forall e :: e in es ==> Carried(e)
  }

  lemma ParseEntryCarried(s: string)
    requires Trimmed(s) && ',' !in s
    ensures ParseEntry(s).Some? ==> Carried(ParseEntry(s).value) && EntryText(ParseEntry(s).value) == s
  {
    if ParseEntry(s).Some? {
      CutRejoins(s, '/');
      var tail := After(s, '/');
      assert SplitN(s, '/', 3) == [Before(s, '/')] + SplitN(tail, '/', 2);
      CutRejoins(tail, '/');
      var e := ParseEntry(s).value;
      assert s == EntryText(e);
      forall c | c in e.ns || c in e.name || c in e.uid ensures c in s {}
      assert s[0] == e.ns[0] && s[|s| - 1] == e.uid[|e.uid| - 1];
    }
  }

  lemma SplitEntryText(ns: string, name: string, uid: string)
    requires '/' !in ns && '/' !in name
    ensures SplitN(EntryText(OwnerEntry(ns, name, uid)), '/', 3) == [ns, name, uid]
  {
    var tail := name + ['/'] + uid;
    var s := EntryText(OwnerEntry(ns, name, uid));
    assert s == ns + ['/'] + tail;
    BeforeAfter(ns, tail, '/');
    BeforeAfter(name, uid, '/');
    assert s[|ns|] == '/' && tail[|name|] == '/';
    assert SplitN(s, '/', 3) == [ns] + SplitN(tail, '/', 2) == [ns] + ([name] + SplitN(uid, '/', 1));
  }

  lemma ParseEntryText(e: OwnerEntry)
    requires Carried(e)
    ensures Trimmed(EntryText(e)) && ',' !in EntryText(e)
    ensures ParseEntry(TrimSpace(EntryText(e))) == Some(e)
  {
    var s := EntryText(e);
    assert s[0] == e.ns[0] && s[|s| - 1] == e.uid[|e.uid| - 1];
    TrimSpaceFixpoint(s);
    SplitEntryText(e.ns, e.name, e.uid);
  }

  lemma {:induction false} ParsePartsCarried(parts: seq<string>)
    requires forall p :: p in parts ==> ',' !in p
    ensures AllCarried(ParseParts(parts))
  {
    if parts != [] {
      TrimSpaceShape(parts[0]);
      ParseEntryCarried(TrimSpace(parts[0]));
      ParsePartsCarried(parts[1..]);
    }
  }

  lemma {:induction false} ParsePartsConcat(parts: seq<string>, more: seq<string>)
    ensures ParseParts(parts + more) == ParseParts(parts) + ParseParts(more)
  {
    if parts == [] {
      assert parts + more == more;
    } else {
      assert (parts + more)[1..] == parts[1..] + more;
      ParsePartsConcat(parts[1..], more);
    }
  }

  // Whatever the annotation holds, parsing yields only entries the format can carry.
  lemma ParsedAreCarried(value: string)
    ensures AllCarried(Parse(value))
  {
    SplitPartsClean(value, ',');
    ParsePartsCarried(Split(value, ','));
  }

  lemma {:induction false} ParsePartsOfTexts(es: seq<OwnerEntry>)
    requires AllCarried(es)
    ensures ParseParts(EntryTexts(es)) == es
    ensures forall p :: p in EntryTexts(es) ==> ',' !in p
    ensures |EntryTexts(es)| == |es|
  {
    if es != [] {
      ParseEntryText(es[0]);
      ParsePartsOfTexts(es[1..]);
    }
  }

  lemma {:induction false} FormatNonEmpty(es: seq<OwnerEntry>)
    requires es != []
    ensures Format(es) != ""
  {
    assert '/' in EntryText(es[0]);
  }

  // An annotation written by Format reads back as the same list exactly when every
  // entry is one the format can carry.
  lemma FormatThenParse(es: seq<OwnerEntry>)
    ensures Parse(Format(es)) == es <==> AllCarried(es)
  {
    ParsedAreCarried(Format(es));
    if AllCarried(es) && es != [] {
      ParsePartsOfTexts(es);
      FormatNonEmpty(es);
      SplitJoin(EntryTexts(es), ',');
    }
  }

  // Rewriting any annotation, well formed or not, changes nothing that is read from it.
  lemma NormalForm(value: string)
    ensures Parse(Format(Parse(value))) == Parse(value)
  {
    ParsedAreCarried(value);
    FormatThenParse(Parse(value));
  }

  // ---- Adding and removing -------------------------------------------------------------

  function Uids(es: seq<OwnerEntry>): set<string> {
    set e | e in es :: e.uid
  }

  predicate UidsDistinct(es: seq<OwnerEntry>) {
    forall i, j :: 0 <= i < j < |es| ==> es[i].uid != es[j].uid
  }

  predicate Delimited(e: OwnerEntry) {
    '/' in e.ns || ',' in e.ns || '/' in e.name || ',' in e.name
  }

  function Add(es: seq<OwnerEntry>, e: OwnerEntry): seq<OwnerEntry> {
    if Delimited(e) || e.uid in Uids(es) then es else es + [e]
  }

  function Remove(es: seq<OwnerEntry>, uid: string): seq<OwnerEntry> {
    if es == [] then []
    else if es[0].uid != uid then [es[0]] + Remove(es[1..], uid)
    else Remove(es[1..], uid)
  }

  lemma {:induction false} RemoveAppend(es: seq<OwnerEntry>, e: OwnerEntry, uid: string)
    ensures Remove(es + [e], uid) == Remove(es, uid) + (if e.uid != uid then [e] else [])
  {
    if es == [] {
      assert [e][1..] == [];
    } else {
      assert (es + [e])[1..] == es[1..] + [e];
      RemoveAppend(es[1..], e, uid);
    }
  }

  lemma {:induction false} RemoveAbsent(es: seq<OwnerEntry>, uid: string)
    requires uid !in Uids(es)
    ensures Remove(es, uid) == es
  {
    if es != [] {
      assert es[0] in es;
      RemoveAbsent(es[1..], uid);
    }
  }

  lemma {:induction false} RemoveConcat(a: seq<OwnerEntry>, b: seq<OwnerEntry>, uid: string)
    ensures Remove(a + b, uid) == Remove(a, uid) + Remove(b, uid)
  {
    if a == [] {
      assert a + b == b;
    } else {
      assert (a + b)[1..] == a[1..] + b;
      RemoveConcat(a[1..], b, uid);
    }
  }

  lemma {:induction false} RemoveCounts(es: seq<OwnerEntry>, e: OwnerEntry, uid: string)
    ensures multiset(Remove(es, uid))[e] == if e.uid == uid then 0 else multiset(es)[e]
  {
    if es != [] {
      assert es == [es[0]] + es[1..];
      RemoveCounts(es[1..], e, uid);
    }
  }

  // Every entry of another UID is kept as often as it was there and no other is, and the kept
  // entries stay in order: the one at i comes right after those kept before it.
  lemma RemoveExact(es: seq<OwnerEntry>, uid: string)
    ensures forall e :: multiset(Remove(es, uid))[e] == if e.uid == uid then 0 else multiset(es)[e]
    ensures forall i | 0 <= i < |es| && es[i].uid != uid :: Remove(es[..i], uid) + [es[i]] <= Remove(es, uid)
  {
    forall e ensures multiset(Remove(es, uid))[e] == if e.uid == uid then 0 else multiset(es)[e] {
      RemoveCounts(es, e, uid);
    }
    forall i | 0 <= i < |es| && es[i].uid != uid ensures Remove(es[..i], uid) + [es[i]] <= Remove(es, uid) {
      assert es == es[..i] + es[i..];
      RemoveConcat(es[..i], es[i..], uid);
      assert Remove(es[i..], uid) == [es[i]] + Remove(es[i + 1..], uid);
    }
  }

  // A new owner is listed behind the others, unless its UID is listed already or its namespace or
  // name holds a slash or a comma.
  lemma AddExact(es: seq<OwnerEntry>, e: OwnerEntry)
    ensures Add(es, e) == if (exists x | x in es :: x.uid == e.uid) || (exists c | c == '/' || c == ',' :: c in e.ns || c in e.name)
                          then es else es + [e]
  {
    assert e.uid in Uids(es) <==> exists x | x in es :: x.uid == e.uid;
    if Delimited(e) {
      assert '/' in e.ns || ',' in e.ns || '/' in e.name || ',' in e.name;
    }
  }

  // Adding keeps UIDs unique, is idempotent, and removing the UID takes back exactly
  // what was added.
  lemma AddLaws(es: seq<OwnerEntry>, e: OwnerEntry)
    ensures UidsDistinct(es) ==> UidsDistinct(Add(es, e))
    ensures Add(Add(es, e), e) == Add(es, e)
    ensures e.uid !in Uids(es) ==> Remove(Add(es, e), e.uid) == es
    ensures Uids(Add(es, e)) == if Delimited(e) then Uids(es) else Uids(es) + {e.uid}
  {
    if e.uid !in Uids(es) {
      RemoveAppend(es, e, e.uid);
      RemoveAbsent(es, e.uid);
      assert forall i :: 0 <= i < |es| ==> es[i].uid in Uids(es);
      assert (es + [e])[|es|] == e;
      assert Uids(es + [e]) == Uids(es) + {e.uid};
    } else {
      assert Uids(es) + {e.uid} == Uids(es);
    }
  }

  // The delimiter check is not enough by itself: an accepted entry survives being
  // written and read back if and only if the format can carry it.
  lemma AddSurvivesWriting(value: string, e: OwnerEntry)
    requires |Add(Parse(value), e)| != |Parse(value)|
    ensures Parse(Format(Add(Parse(value), e))) == Add(Parse(value), e) <==> Carried(e)
  {
    var es := Parse(value);
    ParsedAreCarried(value);
    FormatThenParse(es + [e]);
    assert e in es + [e];
  }

  // ---- When a written UID can be read back ----------------------------------------------

  // The part of Carried that decides whether the UID of an accepted entry is read back,
  // though perhaps under a namespace stripped of leading white space.
  predicate UidSurvives(e: OwnerEntry) {
    && TrimLeft(e.ns) != "" && e.name != ""
    && e.uid != "" && ',' !in e.uid && !IsSpace(e.uid[|e.uid| - 1])
  }

  lemma {:induction false} TrimLeftStops(s: string, tail: string)
    requires tail != "" && !IsSpace(tail[0])
    ensures TrimLeft(s + tail) == TrimLeft(s) + tail
  {
    if s == [] {
      assert s + tail == tail;
    } else if IsSpace(s[0]) {
      assert (s + tail)[1..] == s[1..] + tail;
      TrimLeftStops(s[1..], tail);
    }
  }

  lemma ParseAcceptedText(e: OwnerEntry)
    requires !Delimited(e) && e.uid != "" && ',' !in e.uid && !IsSpace(e.uid[|e.uid| - 1])
    ensures ',' !in EntryText(e)
    ensures ParseEntry(TrimSpace(EntryText(e)))
         == if UidSurvives(e) then Some(e.(ns := TrimLeft(e.ns))) else None
  {
    var tail := ['/'] + (e.name + ['/'] + e.uid);
    assert EntryText(e) == e.ns + tail;
    TrimLeftStops(e.ns, tail);
    TrimLeftShape(e.ns);
    var e' := e.(ns := TrimLeft(e.ns));
    var s := EntryText(e');
    assert TrimLeft(EntryText(e)) == s && s[|s| - 1] == e.uid[|e.uid| - 1];
    SplitEntryText(e'.ns, e'.name, e'.uid);
  }

  lemma {:induction false} TextsAppend(es: seq<OwnerEntry>, e: OwnerEntry)
    ensures EntryTexts(es + [e]) == EntryTexts(es) + [EntryText(e)]
  {
    if es != [] {
      assert (es + [e])[1..] == es[1..] + [e];
      TextsAppend(es[1..], e);
    }
  }

  // After an entry with a new UID has been appended and written, the next reader finds
  // that UID if and only if UidSurvives.
  lemma UidReadBack(value: string, e: OwnerEntry)
    requires !Delimited(e) && e.uid !in Uids(Parse(value))
    ensures e.uid in Uids(Parse(Format(Parse(value) + [e]))) <==> UidSurvives(e)
    ensures Carried(e) ==> Parse(Format(Parse(value) + [e])) == Parse(value) + [e]
  {
    var es := Parse(value);
    ParsedAreCarried(value);
    ParsedAreCarried(Format(es + [e]));
    if e.uid != "" && ',' !in e.uid && !IsSpace(e.uid[|e.uid| - 1]) {
      ParseAcceptedText(e);
      ParsePartsOfTexts(es);
      TextsAppend(es, e);
      var texts := EntryTexts(es) + [EntryText(e)];
      SplitJoin(texts, ',');
      FormatNonEmpty(es + [e]);
      ParsePartsConcat(EntryTexts(es), [EntryText(e)]);
      if UidSurvives(e) {
        assert e.(ns := TrimLeft(e.ns)) in Parse(Format(es + [e]));
      }
    }
  }

  // Whatever entry is appended and written, every earlier owner is read back, in place.
  lemma AppendKeeps(value: string, e: OwnerEntry)
    ensures Parse(value) <= Parse(Format(Parse(value) + [e]))
  {
    var es := Parse(value);
    if es != [] {
      ParsedAreCarried(value);
      ParsePartsOfTexts(es);
      TextsAppend(es, e);
      FormatNonEmpty(es + [e]);
      SplitJoinTail(EntryTexts(es), EntryText(e), ',');
      ParsePartsConcat(EntryTexts(es), Split(EntryText(e), ','));
    }
  }

  lemma LonePart(text: string)
    requires text != "" && ',' !in text && ParseEntry(TrimSpace(text)).None?
    ensures Parse(text) == []
  {
    SplitWhole(text, ',');
    var rest := [text][1..];
    assert rest == [] && ParseParts(rest) == [];
  }

  // An entry without a namespace, written alone, leaves an annotation with no owner in it.
  lemma NamelessIsLost(e: OwnerEntry)
    requires e.ns == "" && !Delimited(e) && e.uid != "" && ',' !in e.uid && !IsSpace(e.uid[|e.uid| - 1])
    ensures Format([e]) != "" && Parse(Format([e])) == []
  {
    ParseAcceptedText(e);
    TextsAppend([], e);
    assert [] + [e] == [e] && Format([e]) == EntryText(e);
    LonePart(EntryText(e));
  }

  // ---- The loops of ownership.go ---------------------------------------------------------

  method ParseOwnerAnnotation(value: string) returns (entries: seq<OwnerEntry>)
    ensures entries == Parse(value)
  {
    if value == "" {
      return [];
    }
    entries := [];
    var parts := Split(value, ',');
    for i := 0 to |parts|
      invariant entries == ParseParts(parts[..i])
    {
      var entry := ParseEntry(TrimSpace(parts[i]));
      ParsePartsConcat(parts[..i], [parts[i]]);
      assert parts[..i + 1] == parts[..i] + [parts[i]];
      if entry.Some? {
        entries := entries + [entry.value];
      }
    }
    assert parts[..|parts|] == parts;
  }

  lemma {:induction false} EntryTextsAt(es: seq<OwnerEntry>)
    ensures |EntryTexts(es)| == |es|
    ensures forall i :: 0 <= i < |es| ==> EntryTexts(es)[i] == EntryText(es[i])
  {
    if es != [] {
      EntryTextsAt(es[1..]);
    }
  }

  method FormatOwnerAnnotation(es: seq<OwnerEntry>) returns (value: string)
    ensures value == Format(es)
  {
    var parts := new string[|es|](_ => "");
    for i := 0 to |es|
      invariant forall j :: 0 <= j < i ==> parts[j] == EntryText(es[j])
    {
      parts[i] := EntryText(es[i]);
    }
    EntryTextsAt(es);
    assert parts[..] == EntryTexts(es);
    value := Join(parts[..], ',');
  }

  method AddOwnerEntry(es: seq<OwnerEntry>, e: OwnerEntry) returns (r: seq<OwnerEntry>)
    ensures r == Add(es, e)
  {
    if '/' in e.ns || ',' in e.ns || '/' in e.name || ',' in e.name {
      return es;
    }
    for i := 0 to |es|
      invariant forall j :: 0 <= j < i ==> es[j].uid != e.uid
    {
      if es[i].uid == e.uid {
        assert es[i] in es;
        return es;
      }
    }
    return es + [e];
  }

  method RemoveOwnerEntry(es: seq<OwnerEntry>, uid: string) returns (r: seq<OwnerEntry>)
    ensures r == Remove(es, uid)
  {
    r := [];
    for i := 0 to |es|
      invariant r == Remove(es[..i], uid)
    {
      RemoveAppend(es[..i], es[i], uid);
      assert es[..i + 1] == es[..i] + [es[i]];
      if es[i].uid != uid {
        r := r + [es[i]];
      }
    }
    assert es[..|es|] == es;
  }
}
