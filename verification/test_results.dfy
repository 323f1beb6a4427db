/** The test-phase outcome model of src/test.rs: test results, their
    serialised document (which keys appear in it), and `write_test_results`. */
module TestModel {
  import opened Wrappers
  import opened Paths

  datatype TestStatus = Pass | Fail | Ready | Ignore

  datatype TestResult = TestResult(desc: string, status: TestStatus)

  datatype TestResults = TestResults(
    passed: seq<TestResult>,
    failed: seq<TestResult>,
    ignored: seq<TestResult>,
    status: TestStatus)

  /** What a test phase function reports; both variants carry results. */
  datatype TestOutcome = TestsPassed(results: TestResults) | TestsFailed(results: TestResults)

  /** `TestResults::new()`: nothing recorded yet, status `Ready`. */
  function NewTestResults(): (r: TestResults)
    ensures r.passed == [] && r.failed == [] && r.ignored == []
    ensures r.status == Ready
  {
    TestResults([], [], [], Ready)
  }

  /** `TestResult::new(desc, status)`. */
  function NewTestResult(desc: string, status: TestStatus): (r: TestResult)
    ensures r.desc == desc && r.status == status
  {
    TestResult(desc, status)
  }

  /** A value in the serialised document: an array of result tables or the status. */
  datatype Value = Results(items: seq<TestResult>) | StatusValue(status: TestStatus)

  /** A serialised document as its top-level keys and values, in field order.
      The TOML text itself is not modelled. */
  type Document = seq<(string, Value)>

  const PassedKey := "passed"
  const FailedKey := "failed"
  const IgnoredKey := "ignored"
  const StatusKey := "status"

  /** A list-valued field, omitted when the list is empty
      (`skip_serializing_if = "Vec::is_empty"`). */
  function ListField(key: string, items: seq<TestResult>): Document {
    if items == [] then [] else [(key, Results(items))]
  }

  /** The document serde produces for `TestResults`. */
  function Serialize(r: TestResults): Document {
    ListField(PassedKey, r.passed) + ListField(FailedKey, r.failed)
      + ListField(IgnoredKey, r.ignored) + [(StatusKey, StatusValue(r.status))]
  }

  /** The keys present in a document. */
  function Keys(d: Document): (ks: set<string>)
    ensures forall i :: 0 <= i < |d| ==> d[i].0 in ks
    ensures forall k :: k in ks ==> exists i :: 0 <= i < |d| && d[i].0 == k
  {
    set i | 0 <= i < |d| :: d[i].0
  }

  /** The value stored under `key`, first occurrence. */
  function Lookup(d: Document, key: string): Option<Value> {
    if |d| == 0 then None
    else if d[0].0 == key then Some(d[0].1)
    else Lookup(d[1..], key)
  }

  /** Reads a list back, treating an absent key as the empty list. */
  function ReadList(d: Document, key: string): seq<TestResult> {
    match Lookup(d, key)
    case Some(Results(items)) => items
    case _ => []
  }

  /** Reads the serialised fields back into `TestResults`. */
  function Deserialize(d: Document): TestResults {
    var status := match Lookup(d, StatusKey) case Some(StatusValue(s)) => s case _ => Ready;
    TestResults(ReadList(d, PassedKey), ReadList(d, FailedKey), ReadList(d, IgnoredKey), status)
  }

  /** Each list key is present exactly when its list is non-empty, and the
      status key is always present. */
  lemma SerializedKeys(r: TestResults)
    ensures PassedKey in Keys(Serialize(r)) <==> r.passed != []
    ensures FailedKey in Keys(Serialize(r)) <==> r.failed != []
    ensures IgnoredKey in Keys(Serialize(r)) <==> r.ignored != []
    ensures StatusKey in Keys(Serialize(r))
    ensures Keys(Serialize(r)) <= {PassedKey, FailedKey, IgnoredKey, StatusKey}
  {
    var d := Serialize(r);
    assert d[|d| - 1].0 == StatusKey;
    if r.passed != [] { assert d[0].0 == PassedKey; }
    if r.failed != [] { assert d[|ListField(PassedKey, r.passed)|].0 == FailedKey; }
    if r.ignored != [] {
      assert d[|ListField(PassedKey, r.passed)| + |ListField(FailedKey, r.failed)|].0 == IgnoredKey;
    }
  }

  /** Omitting empty lists loses nothing: reading the document back, with an
      absent list read as empty, gives the original results. */
  lemma SerializeRoundTrip(r: TestResults)
    ensures Deserialize(Serialize(r)) == r
  {
    var st: Document := [(StatusKey, StatusValue(r.status))];
    var g := ListField(IgnoredKey, r.ignored) + st;
    var f := ListField(FailedKey, r.failed) + g;
    var d := ListField(PassedKey, r.passed) + f;
    assert Serialize(r) == d;
    assert Lookup(st, StatusKey) == Some(StatusValue(r.status));
    assert Lookup(st, IgnoredKey) == None;
    assert Lookup(st, FailedKey) == None;
    assert Lookup(st, PassedKey) == None;
    LookupListField(IgnoredKey, r.ignored, st, StatusKey);
    LookupListField(IgnoredKey, r.ignored, st, IgnoredKey);
    LookupListField(IgnoredKey, r.ignored, st, FailedKey);
    LookupListField(IgnoredKey, r.ignored, st, PassedKey);
    LookupListField(FailedKey, r.failed, g, StatusKey);
    LookupListField(FailedKey, r.failed, g, IgnoredKey);
    LookupListField(FailedKey, r.failed, g, FailedKey);
    LookupListField(FailedKey, r.failed, g, PassedKey);
    LookupListField(PassedKey, r.passed, f, StatusKey);
    LookupListField(PassedKey, r.passed, f, IgnoredKey);
    LookupListField(PassedKey, r.passed, f, FailedKey);
    LookupListField(PassedKey, r.passed, f, PassedKey);
  }

  /** Looking a key up past an optional list field. */
  lemma LookupListField(k: string, items: seq<TestResult>, rest: Document, key: string)
    ensures Lookup(ListField(k, items) + rest, key) ==
      if items != [] && k == key then Some(Results(items)) else Lookup(rest, key)
  {
    if items != [] {
      var d := ListField(k, items) + rest;
      assert d[0] == (k, Results(items));
      assert d[1..] == rest;
    } else {
      assert ListField(k, items) + rest == rest;
    }
  }

  /** Side effects of `write_test_results`. */
  datatype Output =
    | WroteDocument(path: Path, document: Document)
    | PrintedSummary(status: TestStatus, document: Document)

  /** Whether `write_toml_file` fails is a property of the file system,
      passed in as `writeSucceeds`. */
  datatype WriteError = TomlFileError

  /** `write_test_results`: write the document first; only after a successful
      write print the status and the document. A failed write returns the
      error and prints nothing. */
  function WriteTestResults(r: TestResults, path: Path, writeSucceeds: bool)
    : (out: (seq<Output>, Result<(), WriteError>))
    ensures out.1.Ok? <==> writeSucceeds
    ensures out.1.Err? ==> out.0 == []
    ensures out.1.Ok? ==>
              && |out.0| == 2
              && out.0[0] == WroteDocument(path, Serialize(r))
              && out.0[1].PrintedSummary? && out.0[1].status == r.status
    ensures forall i :: 0 <= i < |out.0| && out.0[i].PrintedSummary? ==>
      exists j :: 0 <= j < i && out.0[j] == WroteDocument(path, Serialize(r))
  {
    if writeSucceeds then
      var d := Serialize(r);
      ([WroteDocument(path, d), PrintedSummary(r.status, d)], Ok(()))
    else
      ([], Err(TomlFileError))
  }

  /** Results with no recorded tests serialise to the status alone. */
  lemma EmptyResultsSerializeStatusOnly(status: TestStatus)
    ensures Keys(Serialize(TestResults([], [], [], status))) == {StatusKey}
  {
    var d := Serialize(TestResults([], [], [], status));
    assert d == [(StatusKey, StatusValue(status))];
    assert d[0].0 == StatusKey;
  }
}
