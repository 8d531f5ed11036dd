/** Span names, derived identically by both handlers from a call's full method name. */
module Naming {
  import opened Strings

  /** The method part of a span name: one leading '/' trimmed, every other '/' turned into '.'. */
  function DottedMethod(fullMethodName: string): (d: string)
    ensures '/' !in d
    ensures |fullMethodName| > 0 && fullMethodName[0] == '/' ==> |d| == |fullMethodName| - 1
    ensures !(|fullMethodName| > 0 && fullMethodName[0] == '/') ==> |d| == |fullMethodName|
    ensures forall i :: 0 <= i < |d| ==>
      var c := fullMethodName[i + |fullMethodName| - |d|];
      d[i] == (if c == '/' then '.' else c)
  {
    var trimmed := TrimPrefix(fullMethodName, "/");
    assert |fullMethodName| > 0 && fullMethodName[0] == '/' <==> "/" <= fullMethodName;
    ReplaceAll(trimmed, '/', '.')
  }

  /** fmt.Sprintf("%s.%s", prefix, dotted method). */
  function SpanName(prefix: string, fullMethodName: string): (name: string)
    ensures |name| == |prefix| + 1 + |DottedMethod(fullMethodName)|
    ensures name[..|prefix|] == prefix && name[|prefix|] == '.'
    ensures name[|prefix| + 1..] == DottedMethod(fullMethodName)
    ensures '/' !in prefix ==> '/' !in name
  {
    prefix + "." + DottedMethod(fullMethodName)
  }

  /** Distinct method names can give the same span name: the slash-free method "a.b" and "/a/b". */
  lemma NamesCanCollide(prefix: string)
    ensures SpanName(prefix, "/a/b") == SpanName(prefix, "a.b")
  {
    assert DottedMethod("/a/b") == "a.b";
    assert DottedMethod("a.b") == "a.b";
  }
}
