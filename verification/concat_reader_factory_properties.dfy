/** Properties relating the concat factory's parser to the wire format and
    to itself over several calls. */
module ConcatReaderFactoryProperties {

  import opened Wrappers
  import opened Values
  import opened Structs
  import opened PropertyNames
  import opened SourceModel
  import opened SourceFormat
  import opened ConcatReaderFactory

  /** Writing a well-formed descriptor out and parsing it back gives the
      same descriptor: absent fields come back absent, present ones with
      their values. */
  lemma ParseRenderRoundTrip(s: Source)
    requires s.WellFormed()
    ensures CreateSourceFromDictionary(Render(s)) == Success(s)
  {
  }

  /** Parsing and writing back reproduces the dictionary's seven keys
      exactly, with every value stored unchanged. */
  lemma RenderParseRoundTrip(d: Dictionary)
    requires CreateSourceFromDictionary(d).Success?
    ensures Render(CreateSourceFromDictionary(d).value) == Restrict(d)
  {
  }

  /** Keys other than the seven property names never affect the outcome,
      descriptor or error alike. */
  lemma ParseReadsOnlySourceKeys(d1: Dictionary, d2: Dictionary)
    requires Restrict(d1) == Restrict(d2)
    ensures CreateSourceFromDictionary(d1) == CreateSourceFromDictionary(d2)
  {
    forall k | k in SourceKeys
      ensures (k in d1 <==> k in d2) && (k in d1 ==> d1[k] == d2[k])
    {
      assert k in d1 ==> k in Restrict(d1);
      assert k in d2 ==> k in Restrict(d2);
    }
  }

  /** A dictionary holding only a spec yields that spec and nothing else. */
  lemma SpecOnly(spec: Dictionary)
    ensures CreateSourceFromDictionary(map[SOURCE_SPEC := Dict(spec)])
         == Success(Source(CloudObject(spec), None, None, None, None))
  {
  }

  /** Without a spec the parse fails on the spec, whatever else is present. */
  lemma MissingSpecFails(d: Dictionary)
    requires SOURCE_SPEC !in d
    ensures CreateSourceFromDictionary(d) == Failure(ParameterNotFound(SOURCE_SPEC))
  {
  }

  /** No partial list: once a sub-source fails, the result is that failure,
      whatever follows it. */
  lemma {:induction false} ParseSubSourceListFailedPrefix(a: seq<Dictionary>, b: seq<Dictionary>)
    requires ParseSubSourceList(a).Failure?
    ensures ParseSubSourceList(a + b) == Failure(ParseSubSourceList(a).error)
  {
    assert |a| != 0;
    var ab := a + b;
    assert ab[0] == a[0];
    assert ab[1..] == a[1..] + b;
    if CreateSourceFromDictionary(a[0]).Success? {
      ParseSubSourceListFailedPrefix(a[1..], b);
    }
  }

  /** After a prefix that parses, a list parses as the prefix's descriptors
      followed, in order, by the rest's, or fails with the rest's error. */
  lemma {:induction false} ParseSubSourceListParsedPrefix(a: seq<Dictionary>, b: seq<Dictionary>)
    requires ParseSubSourceList(a).Success?
    ensures ParseSubSourceList(b).Failure? ==>
      ParseSubSourceList(a + b) == Failure(ParseSubSourceList(b).error)
    ensures ParseSubSourceList(b).Success? ==>
      ParseSubSourceList(a + b) == Success(ParseSubSourceList(a).value + ParseSubSourceList(b).value)
  {
    if |a| == 0 {
      assert a + b == b;
      assert ParseSubSourceList(a).value == [];
      if ParseSubSourceList(b).Success? {
        assert [] + ParseSubSourceList(b).value == ParseSubSourceList(b).value;
      }
    } else {
      assert (a + b)[0] == a[0];
      assert (a + b)[1..] == a[1..] + b;
      ParseSubSourceListParsedPrefix(a[1..], b);
      if ParseSubSourceList(b).Success? {
        var head := CreateSourceFromDictionary(a[0]).value;
        var rest := ParseSubSourceList(a[1..]).value;
        var tail := ParseSubSourceList(b).value;
        assert [head] + (rest + tail) == ([head] + rest) + tail;
      }
    }
  }

  /** Only the sub-sources entry of a concat spec is read. */
  lemma GetSubSourcesReadsOnlySources(spec1: CloudObject, spec2: CloudObject)
    requires CONCAT_SOURCE_SOURCES in spec1.fields <==> CONCAT_SOURCE_SOURCES in spec2.fields
    requires CONCAT_SOURCE_SOURCES in spec1.fields ==>
      spec1.fields[CONCAT_SOURCE_SOURCES] == spec2.fields[CONCAT_SOURCE_SOURCES]
    ensures GetSubSources(spec1) == GetSubSources(spec2)
  {
  }
}
