/**
 * internal/pkg/api/middleware/correlation.go: the middleware that makes
 * sure every request carries an X-Request-Id, generating a random
 * 15-character id when the caller sent none.
 *
 * math/rand is an input: `draws` are the non-negative values rand.Int63
 * returns, in the order the generator would draw them.
 */
module Middleware {
  import opened Logger
  import opened Http

  const LowerLetters := "abcdefghijklmnopqrstuvwxyz"
  const UpperLetters := "ABCDEFGHIJKLMNOPQRSTUVWXYZ"
  const DigitLetters := "1234567890"

  /** corrIdLetters: a-z, then A-Z, then the digits 1-9 and 0, 62 characters. */
  const Letters := LowerLetters + UpperLetters + DigitLetters

  /** The length of a generated id. */
  const IdLength := 15

  predicate IsAlphanumeric(c: char)
  {
    'a' <= c <= 'z' || 'A' <= c <= 'Z' || '0' <= c <= '9'
  }

  /** The alphabet is exactly the ASCII letters and digits, 62 of them. */
  lemma LettersAreAlphanumerics()
    ensures |Letters| == 62
    ensures forall c | c in Letters :: IsAlphanumeric(c)
    ensures forall c | IsAlphanumeric(c) :: c in Letters
  {
    LowerLettersExact();
    UpperLettersExact();
    DigitLettersExact();
  }

  lemma LowerLettersExact()
    ensures forall c | c in LowerLetters :: 'a' <= c <= 'z'
    ensures forall c | 'a' <= c <= 'z' :: c in LowerLetters
  {
  }

  lemma UpperLettersExact()
    ensures forall c | c in UpperLetters :: 'A' <= c <= 'Z'
    ensures forall c | 'A' <= c <= 'Z' :: c in UpperLetters
  {
  }

  lemma DigitLettersExact()
    ensures forall c | c in DigitLetters :: '0' <= c <= '9'
    ensures forall c | '0' <= c <= '9' :: c in DigitLetters
  {
  }

  /** The id generated from the given draws: character i is letter number draws[i] mod 62. */
  function IdFrom(draws: seq<nat>): (id: string)
    requires |draws| >= IdLength
    ensures |id| == IdLength
    ensures forall i | 0 <= i < |id| :: IsAlphanumeric(id[i])
  {
    LettersAreAlphanumerics();
    var id := seq(IdLength, i requires 0 <= i < IdLength => Letters[draws[i] % |Letters|]);
    assert forall i | 0 <= i < |id| :: id[i] in Letters;
    id
  }

  /**
   * rndCorrelationId: a 15-byte buffer filled one position at a time, each
   * from the next draw.
   */
  method RndCorrelationId(draws: seq<nat>) returns (id: string)
    requires |draws| >= IdLength
    ensures |id| == IdLength
    ensures forall i | 0 <= i < |id| :: id[i] in Letters
    ensures id == IdFrom(draws)
  {
    var b := new char[IdLength];
    var i := 0;
    while i < b.Length
      invariant 0 <= i <= b.Length
      invariant forall j | 0 <= j < i :: b[j] == Letters[draws[j] % |Letters|]
    {
      b[i] := Letters[draws[i] % |Letters|];
      i := i + 1;
    }
    id := b[..];
  }

  /** The canonical name the middleware looks the header up under. */
  const CorrelationHeader := CanonicalHeaderKey(HeaderCorrelationId)

  lemma CorrelationHeaderIsCanonical()
    ensures CorrelationHeader == "X-Request-Id"
  {
  }

  /** The header map after the middleware: unchanged when the key is present, else the fresh id. */
  function EnsuredHeader(h: Header, draws: seq<nat>): (r: Header)
    requires |draws| >= IdLength
    ensures CorrelationHeader in h ==> r == h
    ensures CorrelationHeader !in h ==> r == h[CorrelationHeader := [IdFrom(draws)]]
  {
    if CorrelationHeader in h then h else HeaderSet(h, HeaderCorrelationId, IdFrom(draws))
  }

  /**
   * The id the middleware stores in gin's key store: the first header value
   * when the caller sent one, else the generated id, which is then never empty.
   */
  lemma ResolvedCorrelationId(h: Header, draws: seq<nat>)
    requires |draws| >= IdLength
    ensures CorrelationHeader in h ==> HeaderGet(EnsuredHeader(h, draws), HeaderCorrelationId) == HeaderGet(h, HeaderCorrelationId)
    ensures CorrelationHeader !in h ==> HeaderGet(EnsuredHeader(h, draws), HeaderCorrelationId) == IdFrom(draws)
    ensures CorrelationHeader !in h ==> |HeaderGet(EnsuredHeader(h, draws), HeaderCorrelationId)| == IdLength
  {
  }

  /** The message the middleware warns with when it generates an id. */
  function GeneratedMessage(corrId: string): string
  {
    "Correlation header doesn't exist, generating a new one: [" + corrId + "]"
  }

  /** The handler EnsureCorrelationId returns, closed over its derived logger. */
  datatype CorrelationMiddleware = CorrelationMiddleware(log: Log) {

    /**
     * One request: log, generate and set the header if it is missing, copy
     * the header's first value into the key store, then run the rest of the
     * chain exactly once.
     */
    method Serve(c: Context, draws: seq<nat>)
      requires |draws| >= IdLength
      modifies c, log.sink
      ensures c.header == EnsuredHeader(old(c.header), draws)
      ensures c.keys == old(c.keys)[HeaderCorrelationId := HeaderGet(c.header, HeaderCorrelationId)]
      ensures c.nextCalls == old(c.nextCalls) + [Snapshot(c.header, c.keys)]
      ensures c.path == old(c.path) && c.written == old(c.written) && c.dispatched == old(c.dispatched)
      ensures c.requestContext == old(c.requestContext)
      ensures log.sink.entries == old(log.sink.entries)
                + [Entry(InfoLevel, log.fields, "Verifying correlation header exist")]
                + (if CorrelationHeader in old(c.header) then []
                   else [Entry(WarnLevel, log.fields, GeneratedMessage(IdFrom(draws)))])
    {
      CorrelationHeaderIsCanonical();
      CanonicalHeaderKeyIdempotent(HeaderCorrelationId);
      log.Emit(InfoLevel, "Verifying correlation header exist");
      var corrHeader := CanonicalHeaderKey(HeaderCorrelationId);
      if corrHeader !in c.header {
        var corrId := RndCorrelationId(draws);
        log.Emit(WarnLevel, GeneratedMessage(corrId));
        c.header := HeaderSet(c.header, corrHeader, corrId);
      }
      c.keys := c.keys[HeaderCorrelationId := HeaderGet(c.header, corrHeader)];
      c.Next();
    }
  }

  /**
   * EnsureCorrelationId: the handler's logger is the given one with
   * package "middleware" and function "EnsureCorrelationId".
   */
  function EnsureCorrelationId(log: Log): (mw: CorrelationMiddleware)
    ensures mw.log.sink == log.sink
    ensures mw.log.fields == log.fields[FieldPackage := Str("middleware")]
                                       [FieldFunction := Str("EnsureCorrelationId")]
  {
    CorrelationMiddleware(log.WithFields(map[FieldPackage := Str("middleware"),
                                             FieldFunction := Str("EnsureCorrelationId")]))
  }
}
