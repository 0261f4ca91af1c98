/** What a daemon reply says, read off its JSON tree without the parsers: relations
    between a tree and a number, a status word, a payment hash or a list of entries,
    and the proof that the parsers find exactly what these relations say. */
module Replies {
  import opened Wrappers
  import opened Model
  import opened Parsing

  // ------------------------------------------------------------------
  // Fields
  // ------------------------------------------------------------------

  /** The values Python counts as false. */
  ghost predicate Blank(j: Json) {
    j == JNull || j == JBool(false) || j == JInt(0) || j == JStr("") || j == JList([]) || j == JObj(map[])
  }

  /** A field of an object, null where there is none. */
  function Field(j: Json, key: string): Json {
    if j.JObj? && key in j.fields then j.fields[key] else JNull
  }

  lemma BlankIsFalsy(j: Json)
    ensures Truthy(j) <==> !Blank(j)
  {
  }

  // ------------------------------------------------------------------
  // Numbers
  // ------------------------------------------------------------------

  ghost predicate AllDigits(s: string) {
    forall i :: 0 <= i < |s| ==> '0' <= s[i] <= '9'
  }

  function Power10(n: nat): nat { if n == 0 then 1 else 10 * Power10(n - 1) }

  /** Each digit times the power of ten of its place. */
  function PlaceValue(s: string): int {
    if s == "" then 0 else (s[0] as int - '0' as int) * Power10(|s| - 1) + PlaceValue(s[1..])
  }

  /** `s` is `d` with or without a sign, and writes the number `n`. */
  ghost predicate Writes(s: string, d: string, n: int) {
    && d != "" && AllDigits(d)
    && (((s == d || s == "+" + d) && n == PlaceValue(d)) || (s == "-" + d && n == -PlaceValue(d)))
  }

  ghost predicate Spells(s: string, n: int) {
    exists d :: Writes(s, d, n)
  }

  lemma {:induction false} PlaceSnoc(s: string, c: char)
    ensures PlaceValue(s + [c]) == PlaceValue(s) * 10 + (c as int - '0' as int)
  {
    if s == "" {
      assert s + [c] == [c] && [c][1..] == "";
      assert Power10(0) == 1;
    } else {
      var d, p := s[0] as int - '0' as int, Power10(|s| - 1);
      assert (s + [c])[1..] == s[1..] + [c];
      PlaceSnoc(s[1..], c);
      assert Power10(|s|) == 10 * p;
      assert d * (10 * p) == (d * p) * 10;
    }
  }

  lemma {:induction false} DigitsRead(s: string)
    ensures Digits(s).Some? <==> AllDigits(s)
    ensures AllDigits(s) ==> Digits(s) == Some(PlaceValue(s)) && PlaceValue(s) >= 0
  {
    if s != "" {
      var front, c := s[..|s| - 1], s[|s| - 1];
      DigitsRead(front);
      PlaceSnoc(front, c);
      assert s == front + [c];
      assert AllDigits(s) <==> AllDigits(front) && '0' <= c <= '9';
    }
  }

  /** Texts that read as a number are exactly the signed or unsigned numerals. */
  lemma NumeralRead(s: string, n: int)
    ensures ParseInt(s) == Some(n) <==> Spells(s, n)
  {
    var signed := s != "" && (s[0] == '-' || s[0] == '+');
    var body := if signed then s[1..] else s;
    DigitsRead(body);
    if ParseInt(s) == Some(n) {
      assert signed ==> s == [s[0]] + body;
      assert Writes(s, body, n);
    }
    if Spells(s, n) {
      var d :| Writes(s, d, n);
      DigitsRead(d);
      assert s != d ==> s[1..] == d;
      assert body == d;
    }
  }

  /** What Python prints for a number reads back as that number. */
  lemma {:induction false} DecimalRead(n: nat)
    ensures Digits(DecimalDigits(n)) == Some(n)
  {
    var s := DecimalDigits(n);
    if n >= 10 { DecimalRead(n / 10); assert s[..|s| - 1] == DecimalDigits(n / 10); }
    else { assert s[..|s| - 1] == ""; }
  }

  lemma DecimalRoundtrip(n: int)
    ensures ParseInt(Decimal(n)) == Some(n)
  {
    DecimalRead(if n < 0 then -n else n);
    DecimalStarts(if n < 0 then -n else n);
    if n < 0 { assert Decimal(n)[1..] == DecimalDigits(-n); }
  }

  lemma {:induction false} DecimalStarts(n: nat)
    ensures DecimalDigits(n) != "" && '0' <= DecimalDigits(n)[0] <= '9'
  {
    if n >= 10 { DecimalStarts(n / 10); }
  }

  /** The number an amount or fee converts to: an integer, a boolean or a numeral. */
  ghost predicate Denotes(j: Json, n: int) {
    j == JInt(n) || (j == JBool(true) && n == 1) || (j == JBool(false) && n == 0) || (j.JStr? && Spells(j.text, n))
  }

  /** The number under `key`; a missing key reads as zero. */
  ghost predicate Reads(o: Json, key: string, n: int) {
    o.JObj? && if key in o.fields then Denotes(o.fields[key], n) else n == 0
  }

  /** The same where booleans are refused. */
  ghost predicate ReadsStrictly(o: Json, key: string, n: int) {
    Reads(o, key, n) && !Field(o, key).JBool?
  }

  ghost predicate Readable(o: Json, key: string) {
    exists n :: Reads(o, key, n)
  }

  lemma NumberRead(o: Fields, key: string, n: int)
    ensures PyInt(Get(o, key, JInt(0))) == Some(n) <==> Reads(JObj(o), key, n)
    ensures Coerce(Get(o, key, JInt(0))) == Some(n) <==> ReadsStrictly(JObj(o), key, n)
  {
    hide ParseInt, Spells;
    if key in o && o[key].JStr? { NumeralRead(o[key].text, n); }
  }

  lemma NumberReadable(o: Fields, key: string)
    ensures PyInt(Get(o, key, JInt(0))).Some? <==> Readable(JObj(o), key)
    ensures forall n :: Reads(JObj(o), key, n) ==> PyInt(Get(o, key, JInt(0))) == Some(n)
    ensures PyInt(Get(o, key, JInt(0))).Some? ==> Reads(JObj(o), key, PyInt(Get(o, key, JInt(0))).value)
  {
    hide PyInt, Reads, Coerce, ReadsStrictly;
    forall n: int ensures PyInt(Get(o, key, JInt(0))) == Some(n) <==> Reads(JObj(o), key, n) { NumberRead(o, key, n); }
    if PyInt(Get(o, key, JInt(0))).Some? { assert Reads(JObj(o), key, PyInt(Get(o, key, JInt(0))).value); }
  }

  // ------------------------------------------------------------------
  // Status words
  // ------------------------------------------------------------------

  /** `a` is the letter `b`, or its small form. */
  ghost predicate SameLetter(a: char, b: char) {
    a == b || ('A' <= b <= 'Z' && a as int == b as int + 32)
  }

  ghost predicate SameLetters(s: string, w: string) {
    |s| == |w| && forall i :: 0 <= i < |s| ==> SameLetter(s[i], w[i])
  }

  /** `s` is the word in any letter case, with the enum prefix put in anywhere, any
      number of times. */
  ghost predicate Says(s: string, word: string)
    decreases |s|
  {
    || (s == "" && word == "")
    || (|s| >= 13 && SameLetters(s[..13], "ENTRY_STATUS_") && Says(s[13..], word))
    || (s != "" && word != "" && SameLetter(s[0], word[0]) && Says(s[1..], word[1..]))
  }

  /** A status word: no small letters, no underscore. */
  ghost predicate Word(w: string) {
    forall i :: 0 <= i < |w| ==> w[i] != '_' && !('a' <= w[i] <= 'z')
  }

  lemma UpperParts(s: string, n: nat)
    requires n <= |s|
    ensures Upper(s)[..n] == Upper(s[..n]) && Upper(s)[n..] == Upper(s[n..])
  {
  }

  lemma UpperSame(s: string, w: string)
    requires forall i :: 0 <= i < |w| ==> !('a' <= w[i] <= 'z')
    ensures Upper(s) == w <==> SameLetters(s, w)
  {
    if Upper(s) == w {
      forall i | 0 <= i < |s| ensures SameLetter(s[i], w[i]) { assert Upper(s)[i] == w[i]; }
    }
  }

  /** Nothing is dropped in front of a letter that does not start the prefix. */
  lemma DropKeeps(v: string)
    requires v != "" && v[0] != 'E'
    ensures DropPrefixes(v) == [v[0]] + DropPrefixes(v[1..])
  {
    if |v| >= |STATUS_PREFIX| { assert v[..|STATUS_PREFIX|][0] == v[0]; }
  }

  /** Behind the first letter of a prefix that is left in, its underscore stays. */
  lemma PrefixTail(v: string)
    requires |v| >= 5 && v[..5] == "NTRY_"
    ensures '_' in DropPrefixes(v)
  {
    assert forall i :: 0 <= i < 5 ==> v[i] == v[..5][i];
    assert v[0] == 'N' && v[1] == 'T' && v[2] == 'R' && v[3] == 'Y' && v[4] == '_';
    DropKeeps(v);
    DropKeeps(v[1..]);
    DropKeeps(v[1..][1..]);
    DropKeeps(v[1..][1..][1..]);
    DropKeeps(v[1..][1..][1..][1..]);
  }

  /** The normal form of a status is a given word exactly when the text says it. */
  lemma {:induction false} StatusRead(s: string, word: string)
    requires Word(word)
    ensures NormalStatus(s) == word <==> Says(s, word)
    decreases |s|
  {
    hide SameLetters;
    var u, n := Upper(s), |STATUS_PREFIX|;
    if s != "" {
      UpperParts(s, 1);
      assert SameLetter(s[0], u[0]);
      if word != "" {
        StatusRead(s[1..], word[1..]);
        assert u[0] == word[0] <==> SameLetter(s[0], word[0]);
      }
    }
    if |s| >= n {
      UpperParts(s, n);
      UpperSame(s[..n], STATUS_PREFIX);
      StatusRead(s[n..], word);
      if u[..n] == STATUS_PREFIX && word != "" {
        assert u[1..][..5] == u[..n][1..6] == "NTRY_";
        PrefixTail(u[1..]);
      }
    } else {
      assert s != "" ==> u == [u[0]] + u[1..];
    }
    assert word != "" ==> word == [word[0]] + word[1..];
  }

  /** The status of a Send reply: a word, or the code of the protocol's enum, where a
      boolean counts as its number. */
  ghost predicate SendSays(entry: Json, word: string, code: int) {
    var raw := Field(entry, "status");
    (raw.JStr? && Says(raw.text, word)) || raw == JInt(code) || (code == 1 && raw == JBool(true))
  }

  /** The status of an activity entry: words only. */
  ghost predicate ActivitySays(entry: Json, word: string) {
    var raw := Field(entry, "status");
    raw.JStr? && Says(raw.text, word)
  }

  ghost predicate StatusWord(w: string, code: int) {
    (w == "PENDING" && code == 1) || (w == "COMPLETE" && code == 2) || (w == "FAILED" && code == 3)
  }

  /** Text of a value that is no string is no status word. */
  lemma TextIsNoWord(env: Env, j: Json, w: string)
    requires !j.JStr? && (w == "PENDING" || w == "COMPLETE" || w == "FAILED")
    ensures Text(env, j) != w
  {
    if j.JInt? {
      DecimalStarts(if j.number < 0 then -j.number else j.number);
      assert Text(env, j)[0] != w[0];
    } else if j.JNull? || j == JBool(true) || j.JList? || j.JObj? {
      assert Text(env, j)[0] != w[0];
    } else {
      assert "False"[1] != "FAILED"[1];
    }
  }

  lemma Unspecified(w: string, code: int)
    requires StatusWord(w, code)
    ensures NormalStatus("UNSPECIFIED") != w
  {
    assert Upper("UNSPECIFIED")[0] == 'U';
  }

  lemma SendStatusRead(env: Env, entry: Fields, w: string, code: int)
    requires StatusWord(w, code)
    ensures SendStatus(env, Get(entry, "status", JStr("UNSPECIFIED"))) == w <==> SendSays(JObj(entry), w, code)
  {
    hide NormalStatus, Says, Decimal;
    var raw := Get(entry, "status", JStr("UNSPECIFIED"));
    Unspecified(w, code);
    if raw.JStr? { StatusRead(raw.text, w); } else { TextIsNoWord(env, raw, w); }
    if raw.JInt? { assert Text(env, raw) == Decimal(raw.number); }
    assert "UNSPECIFIED"[0] != w[0] && "PENDING"[0] != "COMPLETE"[0] && "FAILED"[0] != "PENDING"[0] && "COMPLETE"[0] != "FAILED"[0];
  }

  lemma ActivityStatusRead(env: Env, entry: Fields, w: string, code: int)
    requires StatusWord(w, code)
    ensures var raw := Get(entry, "status", JStr("UNSPECIFIED"));
            (if raw.JStr? then NormalStatus(raw.text) else Text(env, raw)) == w <==> ActivitySays(JObj(entry), w)
  {
    hide NormalStatus, Says, Text;
    var raw := Get(entry, "status", JStr("UNSPECIFIED"));
    Unspecified(w, code);
    if raw.JStr? { StatusRead(raw.text, w); } else { TextIsNoWord(env, raw, w); }
  }

  // ------------------------------------------------------------------
  // Payment hashes
  // ------------------------------------------------------------------

  /** The hash an entry carries: the first value that is not blank at the top, under
      progress, or under the Lightning invoice of the request; else none. */
  ghost predicate HashIs(env: Env, entry: Json, h: string) {
    var top := Field(entry, "payment_hash");
    var progress := Field(Field(entry, "progress"), "payment_hash");
    var request := Field(Field(Field(entry, "request"), "lightning_invoice"), "payment_hash");
    || (!Blank(top) && h == Text(env, top))
    || (Blank(top) && !Blank(progress) && h == Text(env, progress))
    || (Blank(top) && Blank(progress) && !Blank(request) && h == Text(env, request))
    || (Blank(top) && Blank(progress) && Blank(request) && h == "")
  }

  lemma HashRead(env: Env, entry: Fields, h: string)
    ensures ExtractHash(env, entry) == h <==> HashIs(env, JObj(entry), h)
  {
    hide Text;
  }

  // ------------------------------------------------------------------
  // The reply to Send
  // ------------------------------------------------------------------

  /** An object with an entry object that has an id. */
  ghost predicate HasEntry(data: Json) {
    Field(data, "entry").JObj? && !Blank(Field(Field(data, "entry"), "id"))
  }

  /** The amount of a Send reply: the actual amount, or the entry's where that is zero. */
  ghost predicate Moved(data: Json, n: int) {
    || (n != 0 && Reads(data, "actual_amount_sat", n))
    || (Reads(data, "actual_amount_sat", 0) && Reads(Field(data, "entry"), "amount_sat", n))
  }

  ghost predicate HasNumbers(data: Json) {
    (exists n :: Moved(data, n)) && Readable(Field(data, "entry"), "fee_sat")
  }

  lemma AmountRead(data: Json, n: int)
    requires data.JObj? && Field(data, "entry").JObj?
    ensures var actual := PyInt(Get(data.fields, "actual_amount_sat", JInt(0)));
            (if actual == Some(0) then PyInt(Get(Field(data, "entry").fields, "amount_sat", JInt(0))) else actual) == Some(n)
            <==> Moved(data, n)
  {
    hide PyInt, Reads, Coerce, ReadsStrictly;
    NumberRead(data.fields, "actual_amount_sat", n);
    NumberRead(data.fields, "actual_amount_sat", 0);
    NumberRead(Field(data, "entry").fields, "amount_sat", n);
  }

  /** The Send parser finds an entry, its numbers, its status and its hash exactly
      where they are. */
  lemma SendRead(env: Env, data: Json)
    ensures var r := ParseSend(env, data);
            && (r.SendAdapterError? <==> !HasEntry(data))
            && (r.SendReply? <==> HasEntry(data) && HasNumbers(data))
            && (r.SendReply? ==>
                  var entry := Field(data, "entry");
                  && r.entryId == Field(entry, "id")
                  && (forall n :: Moved(data, n) <==> n == r.amountSat) && Reads(entry, "fee_sat", r.feeSat)
                  && (forall w, code :: StatusWord(w, code) ==> (r.status == w <==> SendSays(entry, w, code)))
                  && (forall h :: h != "" ==> (HashIs(env, entry, h) <==> ExtractHash(env, entry.fields) == h))
                  && r.paymentHash == (if HashIs(env, entry, "") then r.entryId else JStr(ExtractHash(env, entry.fields))))
  {
    hide PyInt, Reads, Moved, SendStatus, SendSays, ExtractHash, HashIs;
    if data.JObj? && Field(data, "entry").JObj? {
      var entry := Field(data, "entry").fields;
      BlankIsFalsy(Get(entry, "id", JStr("")));
      var actual := PyInt(Get(data.fields, "actual_amount_sat", JInt(0)));
      var amount := if actual == Some(0) then PyInt(Get(entry, "amount_sat", JInt(0))) else actual;
      forall n: int ensures amount == Some(n) <==> Moved(data, n) { AmountRead(data, n); }
      assert amount.Some? ==> Moved(data, amount.value);
      NumberReadable(entry, "fee_sat");
      forall w, code | StatusWord(w, code)
        ensures SendStatus(env, Get(entry, "status", JStr("UNSPECIFIED"))) == w <==> SendSays(JObj(entry), w, code)
      {
        SendStatusRead(env, entry, w, code);
      }
      forall h: string ensures ExtractHash(env, entry) == h <==> HashIs(env, JObj(entry), h) { HashRead(env, entry, h); }
    }
  }

  // ------------------------------------------------------------------
  // The reply to PrepareSend
  // ------------------------------------------------------------------

  /** A preview that can be approved: a token, a payment hash, and known numbers, with
      an outflow of amount plus fee. */
  ghost predicate Previews(data: Json, amount: int, fee: int, expires: int) {
    && !Blank(Field(data, "send_intent_id")) && !Blank(Field(data, "fee_known")) && !Blank(Field(data, "total_outflow_known"))
    && Field(data, "payment_hash").JStr? && Field(data, "payment_hash").text != ""
    && ReadsStrictly(data, "amount_sat", amount) && ReadsStrictly(data, "expected_fee_sat", fee)
    && ReadsStrictly(data, "expected_total_outflow_sat", amount + fee) && ReadsStrictly(data, "expires_at_unix", expires)
  }

  lemma PreviewRead(data: Json, amount: int, fee: int, expires: int)
    ensures Previews(data, amount, fee, expires) <==>
              && ParsePrepare(data).Some?
              && var p := ParsePrepare(data).value;
                 p.amountSat == amount && p.feeSat == fee && p.totalSat == amount + fee && p.expiresAt == expires
    ensures ParsePrepare(data).Some? ==>
              var p := ParsePrepare(data).value;
              p.sendIntentId == Field(data, "send_intent_id") && JStr(p.paymentHash) == Field(data, "payment_hash")
  {
    hide PyInt, Reads, Coerce, ReadsStrictly;
    if data.JObj? {
      var o := data.fields;
      BlankIsFalsy(Get(o, "send_intent_id", JStr("")));
      BlankIsFalsy(Get(o, "fee_known", JBool(false)));
      BlankIsFalsy(Get(o, "total_outflow_known", JBool(false)));
      NumberRead(o, "amount_sat", amount);
      NumberRead(o, "expected_fee_sat", fee);
      NumberRead(o, "expected_total_outflow_sat", amount + fee);
      NumberRead(o, "expires_at_unix", expires);
    }
  }

  // ------------------------------------------------------------------
  // The reply to activity
  // ------------------------------------------------------------------

  /** The candidate collection of an envelope. */
  ghost predicate Offers(o: Json, c: Json) {
    && o.JObj?
    && if "entries" in o.fields then c == o.fields["entries"]
       else if "items" in o.fields then c == o.fields["items"]
       else if "recent" in o.fields then c == o.fields["recent"] else c == JList([])
  }

  ghost predicate Collects(o: Json, l: seq<Json>) {
    exists c :: Offers(o, c) &&
      if Blank(c) && Field(o, "entry").JObj? then l == [Field(o, "entry")]
      else if c.JObj? then l == [c] else l == if c.JList? then c.items else []
  }

  /** The list of entries a reply is about, whatever its envelope. */
  ghost predicate Lists(data: Json, l: seq<Json>) {
    if data.JList? then l == data.items
    else if Field(data, "activity").JObj? then Collects(Field(data, "activity"), l)
    else if data.JObj? then Collects(data, l) else l == []
  }

  lemma CollectRead(o: Fields) returns (l: seq<Json>)
    ensures forall x :: Collects(JObj(o), x) <==> x == l
    ensures var first := Get(o, "entries", Get(o, "items", Get(o, "recent", JList([]))));
            var single := Get(o, "entry", JNull);
            var candidate := if !Truthy(first) && single.JObj? then JList([single]) else first;
            (if candidate.JObj? then [candidate.fields] else if candidate.JList? then Objects(candidate.items) else []) == Objects(l)
  {
    var first := Get(o, "entries", Get(o, "items", Get(o, "recent", JList([]))));
    BlankIsFalsy(first);
    var single := Get(o, "entry", JNull);
    l := if !Truthy(first) && single.JObj? then [single] else if first.JObj? then [first] else if first.JList? then first.items else [];
    assert Offers(JObj(o), first);
    forall c | Offers(JObj(o), c) ensures c == first {}
    assert [first][..0] == [];
    assert Objects([first]) == Objects([]) + if first.JObj? then [first.fields] else [];
  }

  /** The parser takes the objects of exactly that list. */
  lemma ListRead(data: Json) returns (l: seq<Json>)
    ensures forall x :: Lists(data, x) <==> x == l
    ensures Entries(data) == Objects(l)
  {
    hide Collects, Objects;
    if data.JList? { l := data.items; }
    else if !data.JObj? { l := []; NoObjects(); }
    else if Field(data, "activity").JObj? { l := CollectRead(Field(data, "activity").fields); }
    else { l := CollectRead(data.fields); }
  }

  lemma NoObjects()
    ensures Objects([]) == []
  {
  }

  lemma {:induction false} ObjectsCons(item: Json, rest: seq<Json>)
    ensures Objects([item] + rest) == (if item.JObj? then [item.fields] else []) + Objects(rest)
    decreases |rest|
  {
    if rest == [] {
      assert [item] + rest == [item] && [item][..0] == [];
    } else {
      assert ([item] + rest)[..|rest|] == [item] + rest[..|rest| - 1];
      ObjectsCons(item, rest[..|rest| - 1]);
    }
  }

  /** What an item of the list is about: the entry it wraps, or itself. */
  function Inner(item: Json): Json {
    if Field(item, "entry").JObj? then Field(item, "entry") else item
  }

  /** Its numbers can be read. */
  ghost predicate Legible(item: Json) {
    Readable(Inner(item), "amount_sat") && Readable(Inner(item), "fee_sat")
  }

  /** The activity parser refuses exactly the items without readable numbers, and
      finds amount, fee, status and hash where they are. */
  lemma EntryRead(env: Env, e: Fields)
    ensures var p := ParseActivity(env, e);
            && (p.Parsed? <==> Legible(JObj(e)))
            && (p.Parsed? ==>
                  var entry := Inner(JObj(e));
                  && (forall n :: Reads(entry, "amount_sat", n) <==> n == p.amountSat)
                  && (forall n :: Reads(entry, "fee_sat", n) <==> n == p.feeSat)
                  && (forall h :: HashIs(env, entry, h) <==> h == p.paymentHash)
                  && (forall w, code :: StatusWord(w, code) ==> (p.status == w <==> ActivitySays(entry, w))))
  {
    hide PyInt, Reads, NormalStatus, Text, ActivitySays, ExtractHash, HashIs;
    var entry := Inner(JObj(e)).fields;
    NumberReadable(entry, "amount_sat");
    NumberReadable(entry, "fee_sat");
    forall h: string ensures ExtractHash(env, entry) == h <==> HashIs(env, JObj(entry), h) { HashRead(env, entry, h); }
    forall w, code | StatusWord(w, code)
      ensures var raw := Get(entry, "status", JStr("UNSPECIFIED"));
              (if raw.JStr? then NormalStatus(raw.text) else Text(env, raw)) == w <==> ActivitySays(JObj(entry), w)
    {
      ActivityStatusRead(env, entry, w, code);
    }
  }

  /** An item that is passed over: no object, or readable and about another hash. */
  ghost predicate Skipped(env: Env, item: Json, h: string) {
    item.JObj? ==> Legible(item) && !HashIs(env, Inner(item), h)
  }

  /** Item `k` decides: it is the first that is not passed over. */
  ghost predicate Deciding(env: Env, l: seq<Json>, h: string, k: nat) {
    k < |l| && !Skipped(env, l[k], h) && forall j :: 0 <= j < k ==> Skipped(env, l[j], h)
  }

  /** The deciding entry of a reply for a hash has this status and this amount,
      whichever sign the amount carries. */
  ghost predicate Shows(env: Env, data: Json, h: string, word: string, amount: int) {
    exists l, k :: Lists(data, l) && Deciding(env, l, h, k) && ItemShows(l[k], word, amount)
  }

  /** The deciding entry has numbers that cannot be read. */
  ghost predicate Unreadable(env: Env, data: Json, h: string) {
    exists l, k :: Lists(data, l) && Deciding(env, l, h, k) && !Legible(l[k])
  }

  ghost predicate ItemShows(item: Json, word: string, amount: int) {
    && Legible(item) && ActivitySays(Inner(item), word) && amount >= 0
    && (Reads(Inner(item), "amount_sat", amount) || Reads(Inner(item), "amount_sat", -amount))
  }
}
