/**
 Message templates and the structural fidelity check
 (poc_StressTest/common/signaling/templates.py, fidelity.py and catalog.py).
 */
module Templates {
  import opened Collections

  datatype Json =
    | Obj(fields: map<string, Json>)
    | Arr(items: seq<Json>)
    | Str(text: string)
    | Int(n: int)
    | Float(x: real)
    | Bool(b: bool)
    | Null

  type Record = map<string, Json>

  const TEMPLATE_TOKENS :=
    ["record_id", "timestamp", "procedure_id", "cell_id", "m_tmsi", "enb_ue_s1ap_id", "mme_ue_s1ap_id"]
  const TWIN_ONLY := {"_twin", "txn"}

  /** `tok` */
  function Tok(name: string): string {
    "<<" + name + ">>"
  }

  predicate IsToken(s: string) {
    |s| >= 4 && s[..2] == "<<" && s[|s| - 2..] == ">>"
  }

  /** The value a text stands for: the one of the field whose token it is. */
  function Lookup(context: Record, s: string): Option<Json> {
    if IsToken(s) && s[2..|s| - 2] in context then Some(context[s[2..|s| - 2]]) else None
  }

  lemma LookupIsTok(context: Record, s: string)
    ensures Lookup(context, s).Some? <==> exists k :: k in context && s == Tok(k)
    ensures forall k :: k in context && s == Tok(k) ==> Lookup(context, s) == Some(context[k])
  {
    forall k | s == Tok(k) ensures IsToken(s) && s[2..|s| - 2] == k {
    }
    if IsToken(s) {
      assert s == Tok(s[2..|s| - 2]);
    }
  }

  /** `fill` */
  function Fill(node: Json, context: Record): Json {
    match node
    case Obj(fields) => Obj(map k | k in fields :: Fill(fields[k], context))
    case Arr(items) => Arr(seq(|items|, i requires 0 <= i < |items| => Fill(items[i], context)))
    case Str(s) => if Lookup(context, s).Some? then Lookup(context, s).value else node
    case _ => node
  }

  /** `abstract_record`: the per-instance fields that are there become tokens. */
  function Abstract(r: Record): Record {
    map k | k in r :: if k in TEMPLATE_TOKENS then Str(Tok(k)) else r[k]
  }

  method AbstractRecord(r: Record) returns (template: Record)
    ensures template == Abstract(r)
  {
    template := r;
    for i := 0 to |TEMPLATE_TOKENS|
      invariant template.Keys == r.Keys
      invariant forall k | k in r :: template[k] == if k in TEMPLATE_TOKENS[..i] then Str(Tok(k)) else r[k]
    {
      assert TEMPLATE_TOKENS[..i + 1] == TEMPLATE_TOKENS[..i] + [TEMPLATE_TOKENS[i]];
      if TEMPLATE_TOKENS[i] in template {
        template := template[TEMPLATE_TOKENS[i] := Str(Tok(TEMPLATE_TOKENS[i]))];
      }
    }
    assert TEMPLATE_TOKENS[..|TEMPLATE_TOKENS|] == TEMPLATE_TOKENS;
  }

  /** A record's own per-instance values. */
  function OwnContext(r: Record): Record {
    map k | k in r && k in TEMPLATE_TOKENS :: r[k]
  }

  // ---- round trip ----

  /** Every text in this tree that is a token of the context stands for itself. */
  ghost predicate TokensAreLiteral(node: Json, context: Record) {
    match node
    case Obj(fields) => forall k | k in fields :: TokensAreLiteral(fields[k], context)
    case Arr(items) => forall i | 0 <= i < |items| :: TokensAreLiteral(items[i], context)
    case Str(s) => Lookup(context, s).Some? ==> Lookup(context, s).value == node
    case _ => true
  }

  lemma {:induction false} FillIsIdentityIff(node: Json, context: Record)
    ensures Fill(node, context) == node <==> TokensAreLiteral(node, context)
  {
    match node
    case Obj(fields) =>
      forall k | k in fields ensures Fill(fields[k], context) == fields[k] <==> TokensAreLiteral(fields[k], context) {
        FillIsIdentityIff(fields[k], context);
      }
      var filled := Fill(node, context).fields;
      assert filled.Keys == fields.Keys;
      assert filled == fields <==> forall k | k in fields :: filled[k] == fields[k];
    case Arr(items) =>
      forall i | 0 <= i < |items| ensures Fill(items[i], context) == items[i] <==> TokensAreLiteral(items[i], context) {
        FillIsIdentityIff(items[i], context);
      }
      var filled := Fill(node, context).items;
      assert filled == items <==> forall i | 0 <= i < |items| :: filled[i] == items[i];
    case _ =>
  }

  lemma FieldRoundTrip(r: Record, k: string)
    requires k in r
    ensures Fill(Abstract(r)[k], OwnContext(r)) == r[k]
       <==> k in TEMPLATE_TOKENS || TokensAreLiteral(r[k], OwnContext(r))
  {
    if k in TEMPLATE_TOKENS {
      assert k in OwnContext(r);
      LookupIsTok(OwnContext(r), Tok(k));
    } else {
      FillIsIdentityIff(r[k], OwnContext(r));
    }
  }

  /**
   Filling a record's template with the record's own values gives the record back exactly
   when no other text in it is a token of one of its fields, other than one that is that
   field's very value.
   */
  lemma TemplateRoundTripIff(r: Record)
    ensures Fill(Obj(Abstract(r)), OwnContext(r)) == Obj(r)
       <==> forall k | k in r && k !in TEMPLATE_TOKENS :: TokensAreLiteral(r[k], OwnContext(r))
  {
    var filled := Fill(Obj(Abstract(r)), OwnContext(r)).fields;
    assert filled.Keys == r.Keys;
    forall k | k in r
      ensures filled[k] == r[k] <==> k in TEMPLATE_TOKENS || TokensAreLiteral(r[k], OwnContext(r))
    {
      FieldRoundTrip(r, k);
    }
    assert filled == r <==> forall k | k in r :: filled[k] == r[k];
  }

  // ---- shapes ----

  datatype Shape = Keys(fields: map<string, Shape>) | First(items: seq<Shape>) | Type(name: string)

  /** `shape` */
  function ShapeOf(node: Json): Shape {
    match node
    case Obj(fields) => Keys(map k | k in fields :: ShapeOf(fields[k]))
    case Arr(items) => First(if items == [] then [] else [ShapeOf(items[0])])
    case Str(_) => Type("str")
    case Int(_) => Type("int")
    case Float(_) => Type("float")
    case Bool(_) => Type("bool")
    case Null => Type("NoneType")
  }

  /** Every token of the context that the shape can see stands for a text. */
  ghost predicate TokensAreTexts(node: Json, context: Record) {
    match node
    case Obj(fields) => forall k | k in fields :: TokensAreTexts(fields[k], context)
    case Arr(items) => items == [] || TokensAreTexts(items[0], context)
    case Str(s) => Lookup(context, s).Some? ==> Lookup(context, s).value.Str?
    case _ => true
  }

  lemma OnlyTextsLookLikeTexts(node: Json)
    ensures ShapeOf(node) == Type("str") <==> node.Str?
  {
    assert |"str"| == 3 && |"int"| == 3 && "str"[0] != "int"[0];
    assert |"float"| == 5 && |"bool"| == 4 && |"NoneType"| == 8;
  }

  lemma {:induction false} FillKeepsShapeIff(node: Json, context: Record)
    ensures ShapeOf(Fill(node, context)) == ShapeOf(node) <==> TokensAreTexts(node, context)
  {
    match node
    case Obj(fields) =>
      forall k | k in fields
        ensures ShapeOf(Fill(fields[k], context)) == ShapeOf(fields[k]) <==> TokensAreTexts(fields[k], context)
      {
        FillKeepsShapeIff(fields[k], context);
      }
      var before, after := ShapeOf(node).fields, ShapeOf(Fill(node, context)).fields;
      assert after.Keys == before.Keys;
      assert after == before <==> forall k | k in fields :: after[k] == before[k];
    case Arr(items) =>
      if items != [] {
        FillKeepsShapeIff(items[0], context);
        assert [ShapeOf(Fill(items[0], context))] == [ShapeOf(items[0])]
          <==> ShapeOf(Fill(items[0], context)) == ShapeOf(items[0]);
      }
    case Str(s) =>
      OnlyTextsLookLikeTexts(Fill(node, context));
    case _ =>
  }

  // ---- building and comparing ----

  /** `build`, given the template found: filled, the two fields set, the twin's own fields added. */
  function Build(template: Record, name: string, context: Record, txn: Option<Json>, sidecar: Json): Record
    requires "record_id" in context
  {
    var msg := Fill(Obj(template), context).fields["message_name" := Str(name)]["record_id" := context["record_id"]];
    var sent := if txn.Some? then msg["txn" := txn.value] else msg;
    sent["_twin" := sidecar]
  }

  function Decoded(r: Record): Json {
    if "decoded" in r then r["decoded"] else Null
  }

  datatype Comparison = Comparison(extra: set<string>, missing: set<string>, decodedMatch: bool) {
    predicate Match() {
      extra == {} && missing == {} && decodedMatch
    }
  }

  /** `compare` */
  function Compare(twinMsg: Record, realRec: Record): Comparison {
    var twin := map k | k in twinMsg && k !in TWIN_ONLY :: twinMsg[k];
    Comparison(twin.Keys - realRec.Keys, realRec.Keys - twin.Keys, ShapeOf(Decoded(twin)) == ShapeOf(Decoded(realRec)))
  }

  lemma BuiltKeys(r: Record, name: string, context: Record, txn: Option<Json>, sidecar: Json)
    requires "record_id" in context
    ensures forall k | k !in TWIN_ONLY ::
      k in Build(Abstract(r), name, context, txn, sidecar) <==> k in r || k == "message_name" || k == "record_id"
  {
    TwinOnlyNames();
  }

  lemma TwinOnlyNames()
    ensures "message_name" !in TWIN_ONLY && "record_id" !in TWIN_ONLY && "decoded" !in TWIN_ONLY
    ensures "decoded" != "message_name" && "decoded" != "record_id"
  {
    assert |"message_name"| == 12 && |"record_id"| == 9 && |"decoded"| == 7 && |"_twin"| == 5 && |"txn"| == 3;
  }

  lemma {:induction false} DecodedIsNoToken(i: nat)
    requires i < |TEMPLATE_TOKENS|
    ensures TEMPLATE_TOKENS[i] != "decoded"
  {
    assert |"decoded"| == 7;
    assert |"record_id"| == 9 && |"timestamp"| == 9 && |"procedure_id"| == 12 && |"m_tmsi"| == 6;
    assert |"enb_ue_s1ap_id"| == 14 && |"mme_ue_s1ap_id"| == 14;
    assert "cell_id"[0] != "decoded"[0];
  }

  lemma BuiltDecoded(r: Record, name: string, context: Record, txn: Option<Json>, sidecar: Json)
    requires "record_id" in context
    ensures Decoded(Build(Abstract(r), name, context, txn, sidecar)) == Fill(Decoded(r), context)
  {
    TwinOnlyNames();
    forall i | 0 <= i < |TEMPLATE_TOKENS| ensures TEMPLATE_TOKENS[i] != "decoded" {
      DecodedIsNoToken(i);
    }
  }

  /**
   A message built from a record's template passes the check against that record exactly
   when the record names its message and its id, carries none of the twin's own fields,
   and no token that the decoded body's shape can see is replaced by something other than
   a text.
   */
  lemma BuiltMatchesIff(r: Record, name: string, context: Record, txn: Option<Json>, sidecar: Json)
    requires "record_id" in context
    ensures Compare(Build(Abstract(r), name, context, txn, sidecar), r).Match()
       <==> && "message_name" in r && "record_id" in r && r.Keys !! TWIN_ONLY
            && TokensAreTexts(Decoded(r), context)
  {
    var msg := Build(Abstract(r), name, context, txn, sidecar);
    var twin := map k | k in msg && k !in TWIN_ONLY :: msg[k];
    var c := Compare(msg, r);
    TwinOnlyNames();
    BuiltKeys(r, name, context, txn, sidecar);
    BuiltDecoded(r, name, context, txn, sidecar);
    FillKeepsShapeIff(Decoded(r), context);
    assert Decoded(twin) == Decoded(msg);
    assert c.extra == {"message_name", "record_id"} - r.Keys;
    assert c.missing == r.Keys * TWIN_ONLY;
    assert {"message_name", "record_id"} - r.Keys == {} <==> "message_name" in r && "record_id" in r by {
      if {"message_name", "record_id"} - r.Keys == {} {
        assert "message_name" !in {"message_name", "record_id"} - r.Keys;
        assert "record_id" !in {"message_name", "record_id"} - r.Keys;
      }
    }
  }

  /**
   What a built message carries: the name and the record id asked for, the transaction if
   there is one, the sidecar, and of every other field of the template the filled value.
   */
  lemma BuiltCarries(template: Record, name: string, context: Record, txn: Option<Json>, sidecar: Json, k: string)
    requires "record_id" in context
    ensures var msg := Build(template, name, context, txn, sidecar);
      && msg.Keys == template.Keys + {"message_name", "record_id", "_twin"} + (if txn.Some? then {"txn"} else {})
      && msg["message_name"] == Str(name) && msg["record_id"] == context["record_id"] && msg["_twin"] == sidecar
      && (txn.Some? ==> msg["txn"] == txn.value)
      && (k in template && k !in {"message_name", "record_id", "_twin"} && (k == "txn" ==> txn.None?) ==>
            msg[k] == Fill(template[k], context))
  {
    FieldNamesDiffer();
  }

  lemma FieldNamesDiffer()
    ensures "message_name" != "record_id" && "record_id" != "_twin" && "message_name" != "_twin"
    ensures "txn" != "message_name" && "txn" != "record_id" && "txn" != "_twin"
  {
    assert |"message_name"| == 12 && |"record_id"| == 9 && |"_twin"| == 5 && |"txn"| == 3;
  }

  /** Shapes of different kinds of values differ. */
  lemma ShapesTellKinds(a: Json, b: Json)
    requires ShapeOf(a) == ShapeOf(b)
    ensures (a.Obj? <==> b.Obj?) && (a.Arr? <==> b.Arr?) && (a.Str? <==> b.Str?) && (a.Int? <==> b.Int?)
    ensures (a.Float? <==> b.Float?) && (a.Bool? <==> b.Bool?) && (a.Null? <==> b.Null?)
    ensures a.Obj? ==> a.fields.Keys == b.fields.Keys
  {
    assert "str"[0] == 's' && "int"[0] == 'i' && "float"[0] == 'f' && "bool"[0] == 'b' && "NoneType"[0] == 'N';
    if a.Obj? {
      var x := map k | k in a.fields :: ShapeOf(a.fields[k]);
      var y := map k | k in b.fields :: ShapeOf(b.fields[k]);
      assert Keys(x) == Keys(y) && x.Keys == a.fields.Keys && y.Keys == b.fields.Keys;
    }
  }
}
