/** The operation resolver: the `switch op` bodies of `Index` and `Document`,
    which turn an operation code and its arguments into a request descriptor. */
module Requests {
  import opened Results
  import opened Strconv
  import opened RandomStrings

  /** Operation codes `Create`, `Delete`, `Search`, `Update` and `Index`,
      numbered as the Go `iota` block numbers them. */
  const OpCreate := 0
  const OpDelete := 1
  const OpSearch := 2
  const OpUpdate := 3
  const OpIndex := 4

  /** The requests the resolver can build, with the fields the cluster sees.
      Bodies are the strings handed to `strings.NewReader`. */
  datatype Descriptor =
    | IndicesCreate(index: string, body: string)
    | IndicesDelete(indices: seq<string>)
    | DocumentCreate(index: string, documentId: string, body: string)
    | DocumentDelete(index: string, documentId: string)
  {
    /** The request body, if the request has one. */
    function Body(): Option<string>
    {
      match this
      case IndicesCreate(_, b) => Some(b)
      case IndicesDelete(_) => None
      case DocumentCreate(_, _, b) => Some(b)
      case DocumentDelete(_, _) => None
    }
  }

  // The index-settings template, split around the two numbers it embeds.
  const SettingsHead := "{\n\t\t\t\t\t\"settings\": {\n\t\t\t\t\t\t\"index\": {\n\t\t\t\t\t\t\t\"number_of_shards\": "
  const SettingsMid := ",\n\t\t\t\t\t\t\t\"number_of_replicas\": "
  const SettingsTail := "\n\t\t\t\t\t\t}\n\t\t\t\t\t}\n\t\t\t\t}"

  // The document template, split around the data it embeds.
  const DataHead := "{\n\t\t\t\t\t\"data\": \""
  const DataTail := "\"\n\t\t\t}"

  /** The prefix of every synthesised document id. */
  const IdPrefix := "id-"

  /** Position of the first `c` in `s`, or `|s|` when there is none. */
  function IndexOf(s: string, c: char): (k: nat)
    ensures k <= |s|
    ensures k < |s| ==> s[k] == c
    ensures forall j :: 0 <= j < k ==> s[j] != c
  {
    if s == [] then 0
    else if s[0] == c then 0
    else 1 + IndexOf(s[1..], c)
  }

  /** Cuts `body` into the two texts spliced into the template `head`, `mid`,
      `tail`: what lies between head and tail, split at the first comma. */
  function Cut(body: string, head: string, mid: string, tail: string): Option<(string, string)>
  {
    if |body| < |head| + |tail| || body[..|head|] != head || body[|body| - |tail|..] != tail
    then None
    else
      var core := body[|head|..|body| - |tail|];
      var k := IndexOf(core, ',');
      var rest := core[k..];
      if |rest| < |mid| || rest[..|mid|] != mid then None
      else Some((core[..k], rest[|mid|..]))
  }

  /** Cuts an index-settings body into the texts of its two numbers. */
  function SplitSettings(body: string): Option<(string, string)>
  {
    Cut(body, SettingsHead, SettingsMid, SettingsTail)
  }

  /** Reads the two numbers back out of an index-settings body. */
  function ParseIndexSettings(body: string): Option<(int, int)>
  {
    match SplitSettings(body)
    case None => None
    case Some((a, b)) =>
      match (ParseInt(a), ParseInt(b))
      case (Some(shards), Some(replicas)) => Some((shards, replicas))
      case _ => None
  }

  /** The first `c` is at `n` when `s[n]` is `c` and nothing before it is. */
  lemma IndexOfAt(s: string, c: char, n: nat)
    requires n < |s| && s[n] == c
    requires forall j :: 0 <= j < n ==> s[j] != c
    ensures IndexOf(s, c) == n
  {
  }

  /** Slicing facts about a text spliced between a head and a tail. */
  lemma Enclosed(head: string, x: string, tail: string)
    ensures var s := head + x + tail;
            && |s| == |head| + |x| + |tail|
            && s[..|head|] == head && s[|s| - |tail|..] == tail
            && s[|head|..|s| - |tail|] == x
  {
    var s := head + x + tail;
    assert s[..|head|] == head;
    assert s[|s| - |tail|..] == tail;
    assert s[|head|..|s| - |tail|] == x;
  }

  /** Splicing two texts into a template whose middle starts with a comma and
      cutting the result apart gives them back, provided the first has no comma. */
  lemma CutSplice(head: string, a: string, mid: string, b: string, tail: string)
    requires forall i :: 0 <= i < |a| ==> a[i] != ','
    requires |mid| > 0 && mid[0] == ','
    ensures Cut(head + a + mid + b + tail, head, mid, tail) == Some((a, b))
  {
    var core := a + (mid + b);
    assert head + a + mid + b + tail == head + core + tail;
    Enclosed(head, core, tail);
    Enclosed(a, mid + b, []);
    assert core[|a|..] == mid + b;
    Enclosed(mid, b, []);
    assert forall j :: 0 <= j < |a| ==> core[j] == a[j];
    IndexOfAt(core, ',', |a|);
  }

  /** Whatever the cut yields, splicing it back gives the body. */
  lemma CutExact(body: string, head: string, mid: string, tail: string, a: string, b: string)
    requires Cut(body, head, mid, tail) == Some((a, b))
    ensures body == head + a + mid + b + tail
  {
    var core := body[|head|..|body| - |tail|];
    var k := IndexOf(core, ',');
    var rest := core[k..];
    assert rest == mid + b;
    assert core == a + rest;
    assert body == head + core + tail;
  }

  /** The body of an index-create request. Both counts are spliced in as
      `strconv.Itoa` text, with no range check, and can be read back exactly. */
  function IndexSettings(shards: int, replicas: int): (body: string)
    ensures ParseIndexSettings(body) == Some((shards, replicas))
  {
    var a, b := Itoa(shards), Itoa(replicas);
    CutSplice(SettingsHead, a, SettingsMid, b, SettingsTail);
    SettingsHead + a + SettingsMid + b + SettingsTail
  }

  /** The settings body is the only string that reads back to its two counts:
      it is the `strconv.Itoa` text of each, spliced into the template. */
  lemma ParseIndexSettingsExact(body: string, shards: int, replicas: int)
    requires ParseIndexSettings(body) == Some((shards, replicas))
    ensures body == IndexSettings(shards, replicas)
  {
    var (a, b) := SplitSettings(body).value;
    CutExact(body, SettingsHead, SettingsMid, SettingsTail, a, b);
    ParseIntExact(a, shards);
    ParseIntExact(b, replicas);
  }

  /** Reads the data back out of a document body. */
  function ParseDataPayload(payload: string): Option<string>
  {
    if |payload| < |DataHead| + |DataTail|
       || payload[..|DataHead|] != DataHead
       || payload[|payload| - |DataTail|..] != DataTail
    then None
    else Some(payload[|DataHead|..|payload| - |DataTail|])
  }

  /** The body of a document-create request: the data spliced, unescaped, into
      a one-field document. It can be read back exactly, and it is always a
      fixed 22 characters longer than the data. */
  function DataPayload(data: string): (payload: string)
    ensures ParseDataPayload(payload) == Some(data)
    ensures |payload| == |data| + 22
  {
    var payload := DataHead + data + DataTail;
    assert payload[..|DataHead|] == DataHead;
    assert payload[|payload| - |DataTail|..] == DataTail;
    assert payload[|DataHead|..|payload| - |DataTail|] == data;
    payload
  }

  /** The `switch op` of `Index`: Create and Delete build a request, every
      other code is rejected. */
  function ResolveIndex(op: int, indexName: string, shards: int, replicas: int): (r: Result<Descriptor>)
    ensures r.Ok? <==> op == OpCreate || op == OpDelete
    ensures r.Err? ==> r.error == InvalidOperation && r.error.Message() == "Invalid operation"
    ensures op == OpCreate ==>
              && r.value.IndicesCreate? && r.value.index == indexName
              && ParseIndexSettings(r.value.body) == Some((shards, replicas))
    ensures op == OpCreate ==> r.value.body == IndexSettings(shards, replicas)
    ensures op == OpDelete ==> r.value == IndicesDelete([indexName]) && r.value.Body() == None
  {
    if op == OpCreate then Ok(IndicesCreate(indexName, IndexSettings(shards, replicas)))
    else if op == OpDelete then Ok(IndicesDelete([indexName]))
    else Err(InvalidOperation)
  }

  /** What the `switch op` of `Document` settles on: the request, the data its
      body wraps (Go's `body` variable, empty unless the op is Create) and how
      many random draws have been used by then. */
  datatype Resolved = Resolved(request: Descriptor, data: string, cursor: nat)

  /** The `switch op` of `Document`, with the random generator read from
      `draw` starting at draw number `start`. The data is drawn first, then the id. */
  function ResolveDocument(op: int, indexName: string, docId: string, data: seq<string>,
                           draw: nat -> nat, start: nat): (r: Result<Resolved>)
    ensures r.Ok? <==> op == OpCreate || op == OpDelete
    ensures r.Err? ==> r.error == InvalidOperation && r.error.Message() == "Invalid operation"
    ensures op == OpDelete ==> r.value == Resolved(DocumentDelete(indexName, docId), "", start)
    ensures op == OpCreate ==> r.value.request.DocumentCreate? && r.value.request.index == indexName
    ensures op == OpCreate ==> ParseDataPayload(r.value.request.body) == Some(r.value.data)
    ensures op == OpCreate && |data| > 0 ==> r.value.data == data[0]
    ensures op == OpCreate && |data| == 0 ==>
              |r.value.data| == 100 && forall i :: 0 <= i < 100 ==> r.value.data[i] in Runes
    ensures op == OpCreate && |data| == 0 ==> r.value.data == RandomChars(draw, start, 100)
    ensures op == OpCreate && |docId| > 0 ==> r.value.request.documentId == docId
    ensures op == OpCreate && |docId| == 0 ==>
              r.value.request.documentId == IdPrefix + RandomChars(draw, start + (if |data| == 0 then 100 else 0), 6)
    ensures op == OpCreate && |docId| == 0 ==>
              var id := r.value.request.documentId;
              |id| == 9 && id[..3] == IdPrefix && forall i :: 3 <= i < 9 ==> id[i] in Runes
    ensures op == OpCreate ==>
              r.value.cursor == start + (if |data| == 0 then 100 else 0) + (if |docId| == 0 then 6 else 0)
  {
    if op == OpCreate then
      var body := if |data| > 0 then data[0] else RandomChars(draw, start, 100);
      var afterBody := if |data| > 0 then start else start + 100;
      var id := if |docId| > 0 then docId else IdPrefix + RandomChars(draw, afterBody, 6);
      var cursor := if |docId| > 0 then afterBody else afterBody + 6;
      Ok(Resolved(DocumentCreate(indexName, id, DataPayload(body)), body, cursor))
    else if op == OpDelete then Ok(Resolved(DocumentDelete(indexName, docId), "", start))
    else Err(InvalidOperation)
  }
}
