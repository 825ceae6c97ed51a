/** The redactor that masks credentials and personal data before anything is
    logged, and the audit log every tool invocation writes one record to. */
module LoggingUtils {
  import opened Wrappers
  import opened Json

  /** Keys whose values never reach the log, compared after lower-casing. */
  const SensitiveKeys: set<string> := {
    "authorization", "access_token", "refresh_token", "token",
    "password", "secret", "notes", "email"
  }

  /** What a sensitive value is replaced with. */
  const RedactedMarker: string := "[REDACTED]"

  /** Lower-cases one character for the sensitivity test. Python's
      str.lower() turns A-Z into a-z and U+212A KELVIN SIGN into 'k'; every
      other character's lower-case form either is the character itself or
      contains a character outside ASCII, so it can never help a key match
      SensitiveKeys, all of whose keys are ASCII. Keeping those characters
      as they are therefore decides membership exactly as str.lower() does. */
  function FoldChar(c: char): char {
    if 'A' <= c <= 'Z' then (c as int + 32) as char
    else if c == '\U{212A}' then 'k'
    else c
  }

  function FoldKey(k: string): (r: string)
    ensures |r| == |k|
  {
    seq(|k|, i requires 0 <= i < |k| => FoldChar(k[i]))
  }

  /** A key with no upper-case letter folds to itself. */
  lemma FoldLowerCase(k: string)
    requires forall i | 0 <= i < |k| :: !('A' <= k[i] <= 'Z') && k[i] != '\U{212A}'
    ensures FoldKey(k) == k
  {
  }

  /** `key.lower() in SENSITIVE_KEYS`. */
  predicate IsSensitiveKey(k: string) {
    FoldKey(k) in SensitiveKeys
  }

  /** Every listed key is sensitive as written. */
  lemma ListedKeysSensitive()
    ensures forall k | k in SensitiveKeys :: IsSensitiveKey(k)
  {
    forall k | k in SensitiveKeys ensures IsSensitiveKey(k) {
      FoldLowerCase(k);
    }
  }

  /** Sensitivity ignores case: capitalised and upper-case spellings of a
      listed key are sensitive, and so is a spelling with the KELVIN SIGN,
      which lower-cases to 'k'. */
  lemma SensitiveInAnyCase()
    ensures IsSensitiveKey("Authorization")
    ensures IsSensitiveKey("ACCESS_TOKEN")
    ensures IsSensitiveKey("TO\U{212A}EN")
  {
    assert FoldKey("Authorization") == "authorization";
    assert FoldKey("ACCESS_TOKEN") == "access_token";
    assert FoldKey("TO\U{212A}EN") == "token";
  }

  /** A key that is not listed is not sensitive, even when it contains a
      listed key. */
  lemma UnlistedKeysKept()
    ensures !IsSensitiveKey("name") && !IsSensitiveKey("token_id")
  {
    FoldLowerCase("name");
    FoldLowerCase("token_id");
  }

  /** The replacement for the value of a sensitive key: None stays None,
      anything else (text, bytes, a number, a nested map or list) becomes
      the marker. */
  function RedactValue(v: Value): (r: Value)
    ensures r == Null || r == Str(RedactedMarker)
    ensures r == Null <==> v == Null
  {
    if v.Null? then v else Str(RedactedMarker)
  }

  /** The masking invariant: at every depth, the value under a sensitive key
      is None or the marker, and everything under a non-sensitive key or in
      a list is masked in turn. */
  predicate Masked(v: Value) {
    match v
    case Object(m) =>
      forall k | k in m ::
        if IsSensitiveKey(k) then m[k] == Null || m[k] == Str(RedactedMarker) else Masked(m[k])
    case List(xs) => forall i | 0 <= i < |xs| :: Masked(xs[i])
    case _ => true
  }

  /** `redact_dict`: a map keeps its keys, a sensitive key's value is
      replaced wholesale and every other value is redacted recursively; a
      list keeps its length and is redacted element by element; any other
      value is returned as it is. The result is always masked. */
  function Redact(v: Value): (r: Value)
    ensures v.Object? <==> r.Object?
    ensures v.Object? ==> r.fields.Keys == v.fields.Keys
    ensures v.List? <==> r.List?
    ensures v.List? ==> |r.items| == |v.items|
    ensures !v.Object? && !v.List? ==> r == v
    ensures Masked(r)
  {
    match v
    case Object(m) =>
      Object(map k | k in m :: if IsSensitiveKey(k) then RedactValue(m[k]) else Redact(m[k]))
    case List(xs) =>
      List(seq(|xs|, i requires 0 <= i < |xs| => Redact(xs[i])))
    case _ => v
  }

  /** One level of a map: the value of a sensitive key is replaced by the
      marker whatever its type, except that None stays None; the value of
      any other key is redacted recursively. */
  lemma RedactEntry(m: map<string, Value>, k: string)
    requires k in m
    ensures var r := Redact(Object(m)).fields;
      k in r &&
      (IsSensitiveKey(k) && m[k] != Null ==> r[k] == Str(RedactedMarker)) &&
      (IsSensitiveKey(k) && m[k] == Null ==> r[k] == Null) &&
      (!IsSensitiveKey(k) ==> r[k] == Redact(m[k]))
  {
  }

  /** One element of a list is the redaction of the same element. */
  lemma RedactElement(xs: seq<Value>, i: nat)
    requires i < |xs|
    ensures |Redact(List(xs)).items| == |xs|
    ensures Redact(List(xs)).items[i] == Redact(xs[i])
  {
  }

  /** Masked values are exactly the values redaction leaves alone. */
  lemma {:induction false} MaskedIsFixpoint(v: Value)
    ensures Masked(v) <==> Redact(v) == v
  {
    if Masked(v) {
      match v
      case Object(m) =>
        var r := Redact(v).fields;
        forall k | k in m ensures r[k] == m[k] {
          if !IsSensitiveKey(k) {
            MaskedIsFixpoint(m[k]);
          }
        }
        assert r == m;
      case List(xs) =>
        var r := Redact(v).items;
        forall i | 0 <= i < |xs| ensures r[i] == xs[i] {
          MaskedIsFixpoint(xs[i]);
        }
        assert r == xs;
      case _ =>
    }
  }

  /** Redacting twice is redacting once. */
  lemma RedactIdempotent(v: Value)
    ensures Redact(Redact(v)) == Redact(v)
  {
    MaskedIsFixpoint(Redact(v));
  }

  /** A step into a nested value: a map key or a list index. */
  datatype Step = Key(name: string) | Index(i: nat)

  /** The value reached from v by following path, if every step exists. */
  function At(v: Value, path: seq<Step>): Option<Value>
    decreases |path|
  {
    if path == [] then Some(v)
    else match (v, path[0])
      case (Object(m), Key(k)) => if k in m then At(m[k], path[1..]) else None
      case (List(xs), Index(i)) => if i < |xs| then At(xs[i], path[1..]) else None
      case _ => None
  }

  /** No step of the path goes through a sensitive key. */
  predicate Unguarded(path: seq<Step>) {
    forall j | 0 <= j < |path| :: path[j].Key? ==> !IsSensitiveKey(path[j].name)
  }

  /** Following a path piecewise. */
  lemma {:induction false} AtAppend(v: Value, path: seq<Step>, step: Step)
    requires At(v, path).Some?
    ensures At(v, path + [step]) == At(At(v, path).value, [step])
    decreases |path|
  {
    if path != [] {
      assert (path + [step])[1..] == path[1..] + [step];
      match (v, path[0])
      case (Object(m), Key(k)) => AtAppend(m[k], path[1..], step);
      case (List(xs), Index(i)) => AtAppend(xs[i], path[1..], step);
    }
  }

  /** Along a path that avoids sensitive keys, the redacted value has the
      same path, leading to the redaction of what the input has there. */
  lemma {:induction false} RedactAlongPath(v: Value, path: seq<Step>)
    requires Unguarded(path)
    requires At(v, path).Some?
    ensures At(Redact(v), path) == Some(Redact(At(v, path).value))
    decreases |path|
  {
    if path != [] {
      assert Unguarded(path[1..]) by {
        forall j | 0 <= j < |path[1..]| ensures path[1..][j].Key? ==> !IsSensitiveKey(path[1..][j].name) {
          assert path[1..][j] == path[j + 1];
        }
      }
      match (v, path[0])
      case (Object(m), Key(k)) => RedactAlongPath(m[k], path[1..]);
      case (List(xs), Index(i)) => RedactAlongPath(xs[i], path[1..]);
    }
  }

  /** A sensitive key is masked at any nesting depth, inside maps and lists
      alike, as long as no enclosing key is itself sensitive (in which case
      the whole enclosing value is already the marker). */
  lemma SensitiveMaskedAtAnyDepth(v: Value, path: seq<Step>, k: string)
    requires Unguarded(path) && IsSensitiveKey(k)
    requires At(v, path + [Key(k)]).Some?
    ensures At(Redact(v), path + [Key(k)]) == Some(RedactValue(At(v, path + [Key(k)]).value))
  {
    PathPrefixExists(v, path, Key(k));
    RedactAlongPath(v, path);
    AtAppend(v, path, Key(k));
    AtAppend(Redact(v), path, Key(k));
  }

  /** A scalar reached without passing a sensitive key is left unchanged. */
  lemma UnguardedScalarUnchanged(v: Value, path: seq<Step>)
    requires Unguarded(path)
    requires At(v, path).Some? && !At(v, path).value.Object? && !At(v, path).value.List?
    ensures At(Redact(v), path) == At(v, path)
  {
    RedactAlongPath(v, path);
  }

  /** A path that exists has a prefix that exists. */
  lemma {:induction false} PathPrefixExists(v: Value, path: seq<Step>, step: Step)
    requires At(v, path + [step]).Some?
    ensures At(v, path).Some?
    decreases |path|
  {
    if path != [] {
      assert (path + [step])[1..] == path[1..] + [step];
      match (v, path[0])
      case (Object(m), Key(k)) => PathPrefixExists(m[k], path[1..], step);
      case (List(xs), Index(i)) => PathPrefixExists(xs[i], path[1..], step);
    }
  }

  /** A payload with secrets at the top level, in a nested map and in a map
      inside a list: the two top-level secrets read back as the marker. */
  lemma RedactionExampleTopLevel(payload: map<string, Value>)
    requires payload == map[
      "access_token" := Str("secret"),
      "notes" := Str("private"),
      "nested" := Object(map["token" := Str("hidden")]),
      "list" := List([Object(map["password" := Str("pw")])])]
    ensures At(Redact(Object(payload)), [Key("access_token")]) == Some(Str(RedactedMarker))
    ensures At(Redact(Object(payload)), [Key("notes")]) == Some(Str(RedactedMarker))
  {
    FoldLowerCase("access_token");
    FoldLowerCase("notes");
    SensitiveMaskedAtAnyDepth(Object(payload), [], "access_token");
    SensitiveMaskedAtAnyDepth(Object(payload), [], "notes");
  }

  /** The same payload: the secret in the nested map reads back as the
      marker. */
  lemma RedactionExampleNested(payload: map<string, Value>)
    requires payload == map[
      "access_token" := Str("secret"),
      "notes" := Str("private"),
      "nested" := Object(map["token" := Str("hidden")]),
      "list" := List([Object(map["password" := Str("pw")])])]
    ensures At(Redact(Object(payload)), [Key("nested"), Key("token")]) == Some(Str(RedactedMarker))
  {
    FoldLowerCase("token");
    FoldLowerCase("nested");
    var path := [Key("nested"), Key("token")];
    assert [Key("nested")] + [Key("token")] == path;
    assert path[1..] == [Key("token")];
    assert At(Object(payload), path) == Some(Str("hidden"));
    SensitiveMaskedAtAnyDepth(Object(payload), [Key("nested")], "token");
  }

  /** The same payload: the secret in the map inside the list reads back as
      the marker. */
  lemma RedactionExampleInList(payload: map<string, Value>)
    requires payload == map[
      "access_token" := Str("secret"),
      "notes" := Str("private"),
      "nested" := Object(map["token" := Str("hidden")]),
      "list" := List([Object(map["password" := Str("pw")])])]
    ensures At(Redact(Object(payload)), [Key("list"), Index(0), Key("password")]) == Some(Str(RedactedMarker))
  {
    FoldLowerCase("password");
    FoldLowerCase("list");
    var path := [Key("list"), Index(0), Key("password")];
    assert [Key("list"), Index(0)] + [Key("password")] == path;
    assert path[1..] == [Index(0), Key("password")];
    assert path[1..][1..] == [Key("password")];
    assert At(Object(payload), path) == Some(Str("pw"));
    SensitiveMaskedAtAnyDepth(Object(payload), [Key("list"), Index(0)], "password");
  }

  /** One audit record: the event name and the redacted payload. */
  datatype AuditRecord = AuditRecord(event: string, payload: Value)

  /** Code-point order on strings, the order json.dumps(sort_keys=True)
      writes object keys in. */
  predicate StrLess(a: string, b: string)
    decreases |a|
  {
    if a == [] then b != []
    else if b == [] then false
    else if a[0] != b[0] then a[0] < b[0]
    else StrLess(a[1..], b[1..])
  }

  /** The top-level fields of a record as the log line carries them. */
  function EmittedFields(r: AuditRecord): (fields: seq<(string, Value)>)
    ensures |fields| == 2 && StrLess(fields[0].0, fields[1].0)
    ensures fields[0] == ("event", Str(r.event))
    ensures fields[1] == ("payload", r.payload)
  {
    [("event", Str(r.event)), ("payload", r.payload)]
  }

  /** The log sink's audit lines, oldest first. */
  class AuditLog {
    var records: seq<AuditRecord>

    /** No record ever holds an unmasked payload. */
    ghost predicate Valid()
      reads this
    {
      forall i | 0 <= i < |records| :: Masked(records[i].payload)
    }

    constructor ()
      ensures Valid() && records == []
    {
      records := [];
    }

    /** `audit`: appends exactly one record, whose payload is the
        redacted payload, never the raw one. */
    method Audit(event: string, payload: Value)
      requires Valid()
      modifies this
      ensures Valid()
      ensures records == old(records) + [AuditRecord(event, Redact(payload))]
    {
      var redacted := Redact(payload);
      records := records + [AuditRecord(event, redacted)];
    }
  }
}
