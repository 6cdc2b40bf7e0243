/** Values the two screens exchange with the browser: optional JSON fields,
    JavaScript truthiness, the request a screen hands to the HTTP client, and
    how React writes an integer into the page. */
module Web {

  datatype Option<+T> = None | Some(value: T)

  /** Pass, or the first check that failed. */
  datatype Outcome<+E> = Pass | Fail(error: E)

  /** A string is truthy in JavaScript exactly when it is not empty. */
  predicate TruthyText(s: string) {
    s != ""
  }

  /** An optional string (`undefined` when absent) used as a condition. */
  predicate TruthyOptText(o: Option<string>) {
    o.Some? && TruthyText(o.value)
  }

  /** An optional integer used as a condition: absent and 0 are falsy. */
  predicate TruthyOptNumber(o: Option<int>) {
    o.Some? && o.value != 0
  }

  datatype Verb = Get | Post

  /** What a screen asks the HTTP client to send. The JSON body is a list of
      key/value pairs in the order the object literal writes them. */
  datatype Request = Request(verb: Verb, url: string, body: seq<(string, string)>)

  /** The value stored under `key` in a JSON body, first occurrence. */
  function Lookup(body: seq<(string, string)>, key: string): (r: Option<string>)
    ensures r.Some? <==> exists i :: 0 <= i < |body| && body[i].0 == key
    ensures r.Some? ==> exists i :: 0 <= i < |body| && body[i] == (key, r.value)
  {
    if body == [] then None
    else if body[0].0 == key then Some(body[0].1)
    else
      var rest := Lookup(body[1..], key);
      assert forall i :: 0 < i < |body| ==> body[i] == body[1..][i - 1];
      assert rest.Some? ==> exists i :: 0 <= i < |body[1..]| && body[1..][i] == (key, rest.value);
      rest
  }

  /** The first pair whose key is `body[i].0` sits at `i`: the lookup finds it. */
  lemma {:induction false} LookupFirst(body: seq<(string, string)>, i: nat)
    requires i < |body|
    requires forall j :: 0 <= j < i ==> body[j].0 != body[i].0
    ensures Lookup(body, body[i].0) == Some(body[i].1)
  {
    if i > 0 {
      assert body[1..][i - 1] == body[i];
      LookupFirst(body[1..], i - 1);
    }
  }

  predicate IsDigit(c: char) {
    '0' <= c <= '9'
  }

  predicate AllDigits(s: string) {
    forall i :: 0 <= i < |s| ==> IsDigit(s[i])
  }

  function DigitChar(d: nat): (c: char)
    requires d < 10
    ensures IsDigit(c)
  {
    ('0' as int + d) as char
  }

  /** The decimal digits of `n`, most significant first, with no leading zero. */
  function Decimal(n: nat): (s: string)
    ensures s != [] && AllDigits(s)
    ensures |s| > 1 ==> s[0] != '0'
    decreases n
  {
    if n < 10 then [DigitChar(n)] else Decimal(n / 10) + [DigitChar(n % 10)]
  }

  /** Reads a string of decimal digits back as a number. */
  function DecimalValue(s: string): nat
    requires AllDigits(s)
  {
    if s == [] then 0
    else DecimalValue(s[..|s| - 1]) * 10 + (s[|s| - 1] as int - '0' as int)
  }

  /** React writes an integer child as JavaScript's `String(n)`. */
  function NumberText(n: int): string {
    if n < 0 then "-" + Decimal(-n) else Decimal(n)
  }

  /** React writes nothing for an `undefined` child. */
  function OptNumberText(o: Option<int>): string {
    if o.Some? then NumberText(o.value) else ""
  }

  /** The digits React writes are the number's own: they read back as `n`. */
  lemma {:induction false} DecimalRoundTrip(n: nat)
    ensures DecimalValue(Decimal(n)) == n
  {
    if n >= 10 {
      DecimalRoundTrip(n / 10);
      var s := Decimal(n);
      assert s[..|s| - 1] == Decimal(n / 10);
      assert s[|s| - 1] == DigitChar(n % 10);
    }
  }

  /** Two different integers are never written the same way. */
  lemma NumberTextInjective(m: int, n: int)
    requires NumberText(m) == NumberText(n)
    ensures m == n
  {
    if m < 0 && n < 0 {
      assert Decimal(-m) == NumberText(m)[1..];
      DecimalRoundTrip(-m);
      DecimalRoundTrip(-n);
    } else if m >= 0 && n >= 0 {
      DecimalRoundTrip(m);
      DecimalRoundTrip(n);
    }
  }
}
