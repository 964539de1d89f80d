/**
  The two request handlers of the API server that hold logic of their own:
  the dynamic `UPDATE users` statement of `PUT /api/user/:userId`, and the
  required-field check of `POST /api/transactions/:userId`.

  The database, the HTTP layer and the upload middleware are not modelled: a
  handler's outcome is a value (an error reply, or the statement and the
  parameter list it would send). `bcrypt.hash` is the parameter `hash`.
 */
module Backend {
  import opened Wrappers

  // ---------------------------------------------------------------------------
  // String.prototype.trim

  /** The code points JavaScript's `trim` removes: WhiteSpace and LineTerminator. */
  predicate IsJsSpace(c: char)
  {
    || c == '\t' || c == '\n' || c == '\U{000B}' || c == '\U{000C}' || c == '\r' || c == ' '
    || c == '\U{00A0}' || c == '\U{1680}' || ('\U{2000}' <= c <= '\U{200A}')
    || c == '\U{2028}' || c == '\U{2029}' || c == '\U{202F}' || c == '\U{205F}'
    || c == '\U{3000}' || c == '\U{FEFF}'
  }

  /** How many whitespace characters `s` starts with. */
  function LeadingSpaces(s: string): (n: nat)
    ensures n <= |s|
    ensures forall k :: 0 <= k < n ==> IsJsSpace(s[k])
    ensures n < |s| ==> !IsJsSpace(s[n])
  {
    if s == [] || !IsJsSpace(s[0]) then 0 else 1 + LeadingSpaces(s[1..])
  }

  /** How many whitespace characters `s` ends with. */
  function TrailingSpaces(s: string): (n: nat)
    ensures n <= |s|
    ensures forall k :: |s| - n <= k < |s| ==> IsJsSpace(s[k])
    ensures n < |s| ==> !IsJsSpace(s[|s| - 1 - n])
  {
    if s == [] || !IsJsSpace(s[|s| - 1]) then 0 else 1 + TrailingSpaces(s[..|s| - 1])
  }

  /** `s.trim()`: `s` without its leading and trailing whitespace. */
  function Trim(s: string): (r: string)
    ensures r == [] <==> forall k :: 0 <= k < |s| ==> IsJsSpace(s[k])
    ensures r != [] ==> !IsJsSpace(r[0]) && !IsJsSpace(r[|r| - 1])
  {
    var rest := s[LeadingSpaces(s)..];
    rest[..|rest| - TrailingSpaces(rest)]
  }

  /** Trimming removes whitespace only, and only at the two ends. */
  lemma TrimRemovesOnlyOuterSpace(s: string)
    ensures var i := LeadingSpaces(s);
      && i + |Trim(s)| <= |s| && Trim(s) == s[i..i + |Trim(s)|]
      && (forall k :: 0 <= k < i ==> IsJsSpace(s[k]))
      && (forall k :: i + |Trim(s)| <= k < |s| ==> IsJsSpace(s[k]))
  {
    var i := LeadingSpaces(s);
    var rest := s[i..];
    var j := TrailingSpaces(rest);
    var r := Trim(s);
    assert r == rest[..|rest| - j];
    assert i + |r| == |s| - j;
    assert r == s[i..i + |r|];
    forall k | |s| - j <= k < |s|
      ensures IsJsSpace(s[k])
    {
      assert s[k] == rest[k - i];
    }
  }

  /** Trimming twice is trimming once. */
  lemma TrimIdempotent(s: string)
    ensures Trim(Trim(s)) == Trim(s)
  {
    var r := Trim(s);
    if r != [] {
      assert LeadingSpaces(r) == 0;
      assert TrailingSpaces(r) == 0;
    }
  }

  // ---------------------------------------------------------------------------
  // Placeholders `$k`

  predicate IsDigit(c: char)
  {
    '0' <= c <= '9'
  }

  predicate AllDigits(s: string)
  {
    forall k :: 0 <= k < |s| ==> IsDigit(s[k])
  }

  function Digit(d: nat): (c: char)
    requires d < 10
    ensures IsDigit(c)
  {
    (48 + d) as char
  }

  /** The number a string of decimal digits denotes. */
  function DecimalValue(s: string): nat
    requires AllDigits(s)
  {
    if s == [] then 0 else DecimalValue(s[..|s| - 1]) * 10 + (s[|s| - 1] as int - 48)
  }

  /** `String(n)` for a natural number: its decimal digits, no leading zero. */
  function NatToDecimal(n: nat): (s: string)
    ensures |s| >= 1 && AllDigits(s)
    ensures s[0] == '0' ==> n == 0
  {
    if n < 10 then [Digit(n)] else NatToDecimal(n / 10) + [Digit(n % 10)]
  }

  /** Reading the digits back gives the number. */
  lemma {:induction false} DecimalRoundTrip(n: nat)
    ensures DecimalValue(NatToDecimal(n)) == n
  {
    if n >= 10 {
      DecimalRoundTrip(n / 10);
      var s := NatToDecimal(n);
      assert s[..|s| - 1] == NatToDecimal(n / 10);
    }
  }

  /** The text `column=$k` of one parameterised assignment. */
  function AssignmentText(column: string, k: nat): string
  {
    column + "=$" + NatToDecimal(k)
  }

  /** The position of the first `c` in `s`, or `|s|` when there is none. */
  function FirstIndex(s: string, c: char): (i: nat)
    ensures i <= |s|
    ensures i < |s| ==> s[i] == c
    ensures forall k :: 0 <= k < i ==> s[k] != c
  {
    if s == [] then 0 else if s[0] == c then 0 else 1 + FirstIndex(s[1..], c)
  }

  /** Reads `column=$k` back into the column and the placeholder number. */
  function ParseAssignment(text: string): Option<(string, nat)>
  {
    var i := FirstIndex(text, '$');
    if 1 <= i && i + 1 < |text| && text[i - 1] == '=' && AllDigits(text[i + 1..])
    then Some((text[..i - 1], DecimalValue(text[i + 1..])))
    else None
  }

  /** An assignment's text names its column and its placeholder unambiguously. */
  lemma AssignmentRoundTrip(column: string, k: nat)
    requires '$' !in column
    ensures ParseAssignment(AssignmentText(column, k)) == Some((column, k))
  {
    var text := AssignmentText(column, k);
    var digits := NatToDecimal(k);
    var i := FirstIndex(text, '$');
    forall j | 0 <= j < |column|
      ensures text[j] != '$'
    {
      assert text[j] == column[j];
      assert column[j] in column;
    }
    assert text[|column|] == '=';
    assert text[|column| + 1] == '$';
    assert i == |column| + 1;
    assert text[..i - 1] == column;
    assert text[i + 1..] == digits;
    DecimalRoundTrip(k);
  }

  // ---------------------------------------------------------------------------
  // PUT /api/user/:userId

  const UsernameColumn: string := "username"
  const EmailColumn: string := "email"
  const PasswordColumn: string := "password"
  const ProfilePicColumn: string := "profile_pic"
  const UpdatedAtNow: string := "updated_at=NOW()"
  const NoFieldsMessage: string := "No valid fields to update"

  /** The multipart form: the three text fields (absent when not sent) and the
      stored file name of the uploaded picture (absent when none). */
  datatype ProfileForm = ProfileForm(username: Option<string>, email: Option<string>, password: Option<string>, file: Option<string>)

  /** The columns the handler may set, in the order it considers them. */
  datatype Column = Username | Email | Password | ProfilePic

  function ColumnName(c: Column): (name: string)
    ensures '$' !in name
  {
    match c
    case Username => UsernameColumn
    case Email => EmailColumn
    case Password => PasswordColumn
    case ProfilePic => ProfilePicColumn
  }

  /** Position of a column in the handler's order. */
  function Rank(c: Column): nat
  {
    match c
    case Username => 0
    case Email => 1
    case Password => 2
    case ProfilePic => 3
  }

  /** One column to set and the value bound to its placeholder. */
  datatype Field = Field(column: Column, value: string)

  datatype UpdateOutcome =
    | Rejected(status: nat, message: string)
    | Ready(updates: seq<string>, values: seq<string>, query: string)

  /** `x?.trim()` used as a condition: the trimmed text when it is non-empty. */
  function Filled(x: Option<string>): Option<string>
  {
    if x.Some? && Trim(x.value) != [] then Some(Trim(x.value)) else None
  }

  /** A text field counts exactly when it is sent and holds a non-whitespace
      character; it then contributes its trimmed, non-empty text. */
  lemma FilledWhenNotBlank(x: Option<string>)
    ensures Filled(x).Some? <==> x.Some? && exists k :: 0 <= k < |x.value| && !IsJsSpace(x.value[k])
    ensures Filled(x).Some? ==> Filled(x).value == Trim(x.value) && Filled(x).value != []
  {
  }

  /** The field for `column` when `value` is present, else nothing. */
  function FieldIf(column: Column, value: Option<string>): seq<Field>
  {
    if value.Some? then [Field(column, value.value)] else []
  }

  /** The hashed password, when a non-blank one was sent. */
  function HashedPassword(form: ProfileForm, hash: string -> string): Option<string>
  {
    var p := Filled(form.password);
    if p.Some? then Some(hash(p.value)) else None
  }

  /** The fields that qualify for the update, in the handler's fixed order:
      username, email, password (hashed), profile picture. */
  function Qualifying(form: ProfileForm, hash: string -> string): seq<Field>
  {
    FieldsOf(Filled(form.username), Filled(form.email), HashedPassword(form, hash), form.file)
  }

  /** The fields for the four optional values, in the handler's order. */
  function FieldsOf(username: Option<string>, email: Option<string>, password: Option<string>, file: Option<string>): seq<Field>
  {
    FieldIf(Username, username) + FieldIf(Email, email) + FieldIf(Password, password) + FieldIf(ProfilePic, file)
  }

  /** The value listed for `column`: that of its first field, if any. */
  function ValueOf(fields: seq<Field>, column: Column): Option<string>
  {
    if fields == [] then None
    else if fields[0].column == column then Some(fields[0].value)
    else ValueOf(fields[1..], column)
  }

  lemma {:induction false} ValueOfAppend(a: seq<Field>, b: seq<Field>, column: Column)
    ensures ValueOf(a + b, column) == if ValueOf(a, column).Some? then ValueOf(a, column) else ValueOf(b, column)
  {
    if a == [] {
      assert a + b == b;
    } else {
      assert (a + b)[0] == a[0];
      assert (a + b)[1..] == a[1..] + b;
      ValueOfAppend(a[1..], b, column);
    }
  }

  predicate InOrder(fields: seq<Field>)
  {
    forall i, j :: 0 <= i < j < |fields| ==> Rank(fields[i].column) < Rank(fields[j].column)
  }

  /** Every field of `fields` ranks below `r`. */
  predicate RanksBelow(fields: seq<Field>, r: nat)
  {
    forall i :: 0 <= i < |fields| ==> Rank(fields[i].column) < r
  }

  lemma InOrderAppend(a: seq<Field>, b: seq<Field>, r: nat)
    requires InOrder(a) && InOrder(b) && RanksBelow(a, r)
    requires forall j :: 0 <= j < |b| ==> r <= Rank(b[j].column)
    ensures InOrder(a + b)
  {
    forall i, j | 0 <= i < j < |a + b|
      ensures Rank((a + b)[i].column) < Rank((a + b)[j].column)
    {
      if i < |a| && j >= |a| {
        assert (a + b)[i] == a[i] && (a + b)[j] == b[j - |a|];
      }
    }
  }

  lemma RanksBelowAppend(a: seq<Field>, b: seq<Field>, r: nat)
    requires RanksBelow(a, r) && RanksBelow(b, r)
    ensures RanksBelow(a + b, r)
  {
    forall i | 0 <= i < |a + b|
      ensures Rank((a + b)[i].column) < r
    {
      if i >= |a| {
        assert (a + b)[i] == b[i - |a|];
      }
    }
  }

  /** A field list made by `FieldIf` is ordered and holds only its column. */
  lemma FieldIfRanks(column: Column, value: Option<string>)
    ensures InOrder(FieldIf(column, value))
    ensures RanksBelow(FieldIf(column, value), Rank(column) + 1)
    ensures forall j :: 0 <= j < |FieldIf(column, value)| ==> Rank(column) <= Rank(FieldIf(column, value)[j].column)
    ensures |FieldIf(column, value)| <= 1
  {
  }

  lemma FieldsInOrder(username: Option<string>, email: Option<string>, password: Option<string>, file: Option<string>)
    ensures InOrder(FieldsOf(username, email, password, file))
    ensures |FieldsOf(username, email, password, file)| <= 4
  {
    var u := FieldIf(Username, username);
    var e := FieldIf(Email, email);
    var p := FieldIf(Password, password);
    var f := FieldIf(ProfilePic, file);
    FieldIfRanks(Username, username);
    FieldIfRanks(Email, email);
    FieldIfRanks(Password, password);
    FieldIfRanks(ProfilePic, file);
    InOrderAppend(u, e, 1);
    RanksBelowAppend(u, e, 2);
    InOrderAppend(u + e, p, 2);
    RanksBelowAppend(u + e, p, 3);
    InOrderAppend(u + e + p, f, 3);
  }

  /** The fields keep the handler's fixed order, so no column repeats and
      there are at most four. */
  lemma QualifyingInOrder(form: ProfileForm, hash: string -> string)
    ensures InOrder(Qualifying(form, hash))
    ensures |Qualifying(form, hash)| <= 4
  {
    FieldsInOrder(Filled(form.username), Filled(form.email), HashedPassword(form, hash), form.file);
  }

  lemma FieldsValues(username: Option<string>, email: Option<string>, password: Option<string>, file: Option<string>)
    ensures ValueOf(FieldsOf(username, email, password, file), Username) == username
    ensures ValueOf(FieldsOf(username, email, password, file), Email) == email
    ensures ValueOf(FieldsOf(username, email, password, file), Password) == password
    ensures ValueOf(FieldsOf(username, email, password, file), ProfilePic) == file
  {
    var u := FieldIf(Username, username);
    var e := FieldIf(Email, email);
    var p := FieldIf(Password, password);
    var f := FieldIf(ProfilePic, file);
    assert FieldsOf(username, email, password, file) == u + (e + (p + f));
    forall c
      ensures ValueOf(u + (e + (p + f)), c)
           == match c
              case Username => username
              case Email => email
              case Password => password
              case ProfilePic => file
    {
      ValueOfFieldIf(Username, username, c);
      ValueOfFieldIf(Email, email, c);
      ValueOfFieldIf(Password, password, c);
      ValueOfFieldIf(ProfilePic, file, c);
      ValueOfAppend(p, f, c);
      ValueOfAppend(e, p + f, c);
      ValueOfAppend(u, e + (p + f), c);
    }
  }

  /** Each field qualifies exactly when it is sent with a non-blank value (the
      picture: when a file was uploaded), with the trimmed value, and for the
      password its hash. */
  lemma QualifyingValues(form: ProfileForm, hash: string -> string)
    ensures ValueOf(Qualifying(form, hash), Username) == Filled(form.username)
    ensures ValueOf(Qualifying(form, hash), Email) == Filled(form.email)
    ensures ValueOf(Qualifying(form, hash), Password)
         == if Filled(form.password).Some? then Some(hash(Filled(form.password).value)) else None
    ensures ValueOf(Qualifying(form, hash), ProfilePic) == form.file
  {
    FieldsValues(Filled(form.username), Filled(form.email), HashedPassword(form, hash), form.file);
  }

  lemma ValueOfFieldIf(column: Column, value: Option<string>, c: Column)
    ensures ValueOf(FieldIf(column, value), c) == if column == c then value else None
  {
    if value.Some? {
      assert [Field(column, value.value)][1..] == [];
    }
  }

  /** `updates` and `values` grown in lockstep: the i-th assignment names the
      i-th field's column and the placeholder `$(i+1)`, which binds the i-th value. */
  predicate Aligned(updates: seq<string>, values: seq<string>, fields: seq<Field>)
  {
    && |updates| == |fields| && |values| == |fields|
    && (fields != [] ==>
          && Aligned(updates[..|fields| - 1], values[..|fields| - 1], fields[..|fields| - 1])
          && updates[|fields| - 1] == AssignmentText(ColumnName(fields[|fields| - 1].column), |fields|)
          && values[|fields| - 1] == fields[|fields| - 1].value)
  }

  lemma AlignedPush(updates: seq<string>, values: seq<string>, fields: seq<Field>, f: Field)
    requires Aligned(updates, values, fields)
    ensures Aligned(updates + [AssignmentText(ColumnName(f.column), |values + [f.value]|)], values + [f.value], fields + [f])
  {
    var u := updates + [AssignmentText(ColumnName(f.column), |values + [f.value]|)];
    assert u[..|fields|] == updates;
    assert (values + [f.value])[..|fields|] == values;
    assert (fields + [f])[..|fields|] == fields;
  }

  /** In aligned lists the i-th assignment reads back as its field's column
      and the placeholder `$(i+1)`, and the (i+1)-th value is that field's value. */
  lemma {:induction false} AlignedPlaceholdersResolve(updates: seq<string>, values: seq<string>, fields: seq<Field>, i: nat)
    requires Aligned(updates, values, fields)
    requires i < |updates|
    ensures ParseAssignment(updates[i]) == Some((ColumnName(fields[i].column), i + 1))
    ensures values[i] == fields[i].value
  {
    var n := |fields|;
    if i == n - 1 {
      AssignmentRoundTrip(ColumnName(fields[i].column), i + 1);
    } else {
      AlignedPlaceholdersResolve(updates[..n - 1], values[..n - 1], fields[..n - 1], i);
    }
  }

  /** `xs.join(sep)` */
  function Join(xs: seq<string>, sep: string): string
  {
    if xs == [] then ""
    else if |xs| == 1 then xs[0]
    else Join(xs[..|xs| - 1], sep) + sep + xs[|xs| - 1]
  }

  /** The statement's template literal, for the given assignments and WHERE placeholder. */
  function UpdateQuery(updates: seq<string>, whereIndex: nat): string
  {
    "UPDATE users SET " + Join(updates, ", ") + " WHERE id=$" + NatToDecimal(whereIndex)
    + " RETURNING id, username, email, profile_pic"
  }

  /** The statement's WHERE condition has the shape of an assignment:
      `id=$k`, which reads back as the column `id` and the placeholder k. */
  lemma UpdateQueryWhere(updates: seq<string>, k: nat)
    ensures UpdateQuery(updates, k)
         == "UPDATE users SET " + Join(updates, ", ") + " WHERE " + AssignmentText("id", k)
            + " RETURNING id, username, email, profile_pic"
    ensures ParseAssignment(AssignmentText("id", k)) == Some(("id", k))
  {
    AssignmentRoundTrip("id", k);
  }

  /** One `if (x) { values.push(v); updates.push(`col=$${values.length}`) }`
      step of the handler: a present value is bound to the next placeholder. */
  method PushIfPresent(updates: seq<string>, values: seq<string>, ghost fields: seq<Field>, column: Column, value: Option<string>)
    returns (updates': seq<string>, values': seq<string>)
    requires Aligned(updates, values, fields)
    ensures Aligned(updates', values', fields + FieldIf(column, value))
  {
    updates', values' := updates, values;
    if value.Some? {
      AlignedPush(updates, values, fields, Field(column, value.value));
      values' := values' + [value.value];
      updates' := updates' + [ColumnName(column) + "=$" + NatToDecimal(|values'|)];
    } else {
      assert fields + FieldIf(column, value) == fields;
    }
  }

  /** The update builder of `PUT /api/user/:userId`. With no qualifying field it
      answers 400; otherwise the assignments and values are aligned field by
      field, `updated_at=NOW()` comes last and binds nothing, and `userId` is
      the last value, named by the WHERE placeholder. */
  method BuildProfileUpdate(userId: string, form: ProfileForm, hash: string -> string) returns (outcome: UpdateOutcome)
    ensures var q := Qualifying(form, hash);
      if q == [] then outcome == Rejected(400, NoFieldsMessage)
      else
        && outcome.Ready?
        && |outcome.updates| == |q| + 1 && |outcome.values| == |q| + 1
        && Aligned(outcome.updates[..|q|], outcome.values[..|q|], q)
        && outcome.updates[|q|] == UpdatedAtNow
        && outcome.values[|q|] == userId
        && outcome.query == UpdateQuery(outcome.updates, |outcome.values|)
  {
    var updates: seq<string> := [];
    var values: seq<string> := [];
    ghost var fields: seq<Field> := [];

    var username := Filled(form.username);
    updates, values := PushIfPresent(updates, values, fields, Username, username);
    fields := fields + FieldIf(Username, username);

    var email := Filled(form.email);
    updates, values := PushIfPresent(updates, values, fields, Email, email);
    fields := fields + FieldIf(Email, email);

    var password := Filled(form.password);
    var hashed := if password.Some? then Some(hash(password.value)) else None;
    updates, values := PushIfPresent(updates, values, fields, Password, hashed);
    fields := fields + FieldIf(Password, hashed);

    updates, values := PushIfPresent(updates, values, fields, ProfilePic, form.file);
    fields := fields + FieldIf(ProfilePic, form.file);
    assert fields == Qualifying(form, hash);

    if |updates| == 0 {
      return Rejected(400, NoFieldsMessage);
    }

    ghost var fieldUpdates, fieldValues := updates, values;
    updates := updates + [UpdatedAtNow];
    values := values + [userId];
    assert updates[..|fields|] == fieldUpdates && values[..|fields|] == fieldValues;

    var query := UpdateQuery(updates, |values|);
    return Ready(updates, values, query);
  }

  /** Every field assignment of a built update parses as `column=$k` where
      `column` is that field's column and `$k`, with k = i + 1, binds the k-th
      value, which is that field's value; the WHERE placeholder is one past
      the last field placeholder and binds `userId`. */
  lemma UpdatePlaceholdersBindValues(userId: string, form: ProfileForm, hash: string -> string,
                                     outcome: UpdateOutcome, i: nat)
    requires var q := Qualifying(form, hash);
      && q != [] && outcome.Ready?
      && |outcome.updates| == |q| + 1 && |outcome.values| == |q| + 1
      && Aligned(outcome.updates[..|q|], outcome.values[..|q|], q)
      && outcome.values[|q|] == userId
    requires i < |Qualifying(form, hash)|
    ensures ParseAssignment(outcome.updates[i]) == Some((ColumnName(Qualifying(form, hash)[i].column), i + 1))
    ensures i + 1 < |outcome.values| && outcome.values[i] == Qualifying(form, hash)[i].value
    ensures outcome.values[|outcome.values| - 1] == userId
  {
    var q := Qualifying(form, hash);
    ReadyPlaceholdersBind(outcome.updates, outcome.values, q, i);
  }

  /** `UpdatePlaceholdersBindValues` for any list of fields. */
  lemma ReadyPlaceholdersBind(updates: seq<string>, values: seq<string>, fields: seq<Field>, i: nat)
    requires |updates| == |fields| + 1 && |values| == |fields| + 1
    requires Aligned(updates[..|fields|], values[..|fields|], fields)
    requires i < |fields|
    ensures ParseAssignment(updates[i]) == Some((ColumnName(fields[i].column), i + 1))
    ensures values[i] == fields[i].value
  {
    var n := |fields|;
    var u, v := updates[..n], values[..n];
    AlignedPlaceholdersResolve(u, v, fields, i);
    assert u[i] == updates[i];
    assert v[i] == values[i];
  }

  // ---------------------------------------------------------------------------
  // POST /api/transactions/:userId

  /** A JSON body field as Express hands it over. `Composite` is any object or
      array: always truthy, and its contents play no part here. */
  datatype BodyValue = Undefined | Null | Text(text: string) | Number(number: real) | Boolean(flag: bool) | Composite

  /** JavaScript truthiness (NaN, which is falsy, is not modelled). */
  predicate Truthy(v: BodyValue)
  {
    match v
    case Undefined => false
    case Null => false
    case Text(s) => s != []
    case Number(x) => x != 0.0
    case Boolean(b) => b
    case Composite => true
  }

  datatype TransactionBody = TransactionBody(kind: BodyValue, category: BodyValue, amount: BodyValue, date: BodyValue)

  datatype CreateOutcome =
    | Refused(status: nat, message: string)
    | Insert(params: seq<BodyValue>)

  const AllFieldsMessage: string := "All fields are required"

  /** The four required fields, in the order of the INSERT's columns. */
  function RequiredFields(body: TransactionBody): seq<BodyValue>
  {
    [body.kind, body.category, body.amount, body.date]
  }

  /** The required-field check of `POST /api/transactions/:userId`: a 400 reply
      when any of type, category, amount, date is falsy; otherwise the INSERT's
      parameters, the user id first and then the four fields as sent. */
  function CreateTransaction(userId: string, body: TransactionBody): (r: CreateOutcome)
    ensures r.Insert? <==> forall v :: v in RequiredFields(body) ==> Truthy(v)
    ensures r.Refused? ==> r == Refused(400, AllFieldsMessage)
    ensures r.Insert? ==> r.params == [Text(userId)] + RequiredFields(body)
  {
    if !Truthy(body.kind) || !Truthy(body.category) || !Truthy(body.amount) || !Truthy(body.date)
    then Refused(400, AllFieldsMessage)
    else Insert([Text(userId), body.kind, body.category, body.amount, body.date])
  }

  /** An amount of 0 counts as missing, while the text "0" does not. */
  lemma ZeroAmountIsRefused(userId: string)
    ensures CreateTransaction(userId, TransactionBody(Text("expense"), Text("Food"), Number(0.0), Text("2024-01-05"))).Refused?
    ensures CreateTransaction(userId, TransactionBody(Text("expense"), Text("Food"), Text("0"), Text("2024-01-05"))).Insert?
  {
  }
}
