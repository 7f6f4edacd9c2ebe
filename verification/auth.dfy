/** The admin sign-in flow: a magic-link token is issued into `auth_tokens`,
    redeemed once before it expires, and admin sessions in `admin_sessions`
    are checked, expired lazily and cleared on logout. The auth user list,
    the link generator, the random bytes and the clock are parameters. */
module Auth {
  import opened Wrappers
  import opened Text
  import opened Seqs
  import EmailConfig
  import EmailService
  import opened Records

  newtype byte = x: int | 0 <= x < 256

  const TokenBytes: nat := 32
  const TokenLifetime: int := 15 * 60 * 1000
  const SessionCookie: string := "admin_session"

  // ---------------------------------------------------------------------
  // E-mail format: /^[^\s@]+@[^\s@]+\.[^\s@]+$/

  predicate PlainChar(c: char)
  {
    c != '@' && !IsSpace(c)
  }

  predicate PlainChars(x: string)
  {
    forall k :: 0 <= k < |x| ==> PlainChar(x[k])
  }

  /** One or more characters of `[^\s@]`. */
  predicate Plain(x: string)
  {
    |x| > 0 && PlainChars(x)
  }

  /** The pattern matches `s` with its `@` at `i` and its `.` at `j`. */
  ghost predicate EmailMatch(s: string, i: int, j: int)
  {
    0 <= i < j < |s| && s[i] == '@' && s[j] == '.' &&
    Plain(s[..i]) && Plain(s[i + 1..j]) && Plain(s[j + 1..])
  }

  /** The format check: exactly one `@`, no white space, a non-empty local
      part, and a `.` in the domain that is neither its first nor its last
      character. */
  predicate ValidEmail(s: string)
  {
    var at := FirstIndex(s, c => c == '@');
    at < |s| && Plain(s[..at]) && PlainChars(s[at + 1..]) &&
    exists j :: at + 1 < j < |s| - 1 && s[j] == '.'
  }

  /** Characters taken from a range of `[^\s@]` characters are plain. */
  lemma PlainRange(s: string, lo: int, hi: int)
    requires 0 <= lo <= hi <= |s|
    requires forall m :: lo <= m < hi ==> PlainChar(s[m])
    ensures PlainChars(s[lo..hi])
  {
    var sub := s[lo..hi];
    forall k | 0 <= k < |sub| ensures PlainChar(sub[k]) {
      assert sub[k] == s[lo + k];
    }
  }

  lemma ValidEmailIff(s: string)
    ensures ValidEmail(s) <==> exists i, j :: EmailMatch(s, i, j)
  {
    var at := FirstIndex(s, c => c == '@');
    if ValidEmail(s) {
      var j :| at + 1 < j < |s| - 1 && s[j] == '.';
      var domain := s[at + 1..];
      assert forall m :: at + 1 <= m < |s| ==> s[m] == domain[m - (at + 1)];
      PlainRange(s, at + 1, j);
      PlainRange(s, j + 1, |s|);
      assert s[j + 1..|s|] == s[j + 1..];
      assert EmailMatch(s, at, j);
    }
    if exists i, j :: EmailMatch(s, i, j) {
      var i, j :| EmailMatch(s, i, j);
      var local, middle, tail := s[..i], s[i + 1..j], s[j + 1..];
      assert forall m :: 0 <= m < i ==> s[m] == local[m];
      assert forall m :: i + 1 <= m < j ==> s[m] == middle[m - (i + 1)];
      assert forall m :: j + 1 <= m < |s| ==> s[m] == tail[m - (j + 1)];
      assert at == i;
      PlainRange(s, i + 1, |s|);
      assert s[i + 1..|s|] == s[i + 1..];
      assert at + 1 < j < |s| - 1 && s[j] == '.';
    }
  }

  // ---------------------------------------------------------------------
  // Token text: `randomBytes(32).toString("hex")`

  predicate IsHexDigit(c: char)
  {
    '0' <= c <= '9' || 'a' <= c <= 'f'
  }

  function DigitValue(c: char): (n: int)
    requires IsHexDigit(c)
    ensures 0 <= n < 16
  {
    if c <= '9' then c as int - '0' as int else c as int - 'a' as int + 10
  }

  function HexDigit(n: int): (c: char)
    requires 0 <= n < 16
    ensures IsHexDigit(c) && DigitValue(c) == n
  {
    if n < 10 then ('0' as int + n) as char else ('a' as int + n - 10) as char
  }

  /** Two lower-case hexadecimal digits per byte, high nibble first. */
  function Hex(bytes: seq<byte>): (s: string)
    ensures |s| == 2 * |bytes|
    ensures forall k :: 0 <= k < |s| ==> IsHexDigit(s[k])
  {
    if bytes == [] then ""
    else [HexDigit(bytes[0] as int / 16), HexDigit(bytes[0] as int % 16)] + Hex(bytes[1..])
  }

  /** Reads hexadecimal text back into bytes. */
  function Unhex(s: string): Option<seq<byte>>
  {
    if |s| == 0 then Some([])
    else if |s| == 1 || !IsHexDigit(s[0]) || !IsHexDigit(s[1]) then None
    else match Unhex(s[2..])
      case None => None
      case Some(rest) => Some([(16 * DigitValue(s[0]) + DigitValue(s[1])) as byte] + rest)
  }

  lemma {:induction false} HexRoundTrip(bytes: seq<byte>)
    ensures Unhex(Hex(bytes)) == Some(bytes)
  {
    if bytes != [] {
      var s := Hex(bytes);
      assert s[2..] == Hex(bytes[1..]);
      HexRoundTrip(bytes[1..]);
      assert bytes == [bytes[0]] + bytes[1..];
    }
  }

  /** Different random bytes never give the same token. */
  lemma HexInjective(a: seq<byte>, b: seq<byte>)
    requires Hex(a) == Hex(b)
    ensures a == b
  {
    HexRoundTrip(a);
    HexRoundTrip(b);
  }

  // ---------------------------------------------------------------------
  // Tables and users

  /** A row of `auth_tokens`; its id is its position in the table. */
  datatype TokenRow = TokenRow(email: string, token: string, expiresAt: int, used: bool)

  /** An entry of the auth user list; `fullName` is `user_metadata.full_name`. */
  datatype AuthUser = AuthUser(id: string, email: Option<string>, fullName: Option<string>)

  /** A row of `admin_sessions`, keyed by its session token. */
  datatype Session = Session(adminEmail: string, expiresAt: int)

  /** What a delete request does: removes the row, reports an error (and
      removes nothing), or throws. */
  datatype DeleteOutcome = Deleted | DeleteFailed | DeleteThrows

  function UserWithEmail(users: seq<AuthUser>, email: string): (r: Option<AuthUser>)
    ensures r.Some? <==> exists k :: 0 <= k < |users| && users[k].email == Some(email)
    ensures r.Some? ==> r.value in users && r.value.email == Some(email)
    ensures r.Some? ==>
      exists k :: 0 <= k < |users| && users[k] == r.value && forall j :: 0 <= j < k ==> users[j].email != Some(email)
  {
    Find(users, (u: AuthUser) => u.email == Some(email))
  }

  // ---------------------------------------------------------------------
  // POST /api/auth/send-magic-link

  datatype MagicLinkResponse =
    | MagicLinkError(status: nat, error: string)
    | MagicLinkSent(message: string, token: Option<string>)

  /** The response, the token table afterwards, and the e-mail attempt
      with its result (`None` when no e-mail was attempted). */
  datatype MagicLinkOutcome = MagicLinkOutcome(
    response: MagicLinkResponse,
    tokens: seq<TokenRow>,
    mail: Option<Result<EmailConfig.Message>>)

  /** The greeting name: the full name, else the part of the e-mail before
      `@`, else `Admin`. */
  function AdminName(u: AuthUser): (name: string)
    ensures name != ""
    ensures u.fullName.Some? && u.fullName.value != "" ==> name == u.fullName.value
    ensures !(u.fullName.Some? && u.fullName.value != "") && u.email.Some? && BeforeFirst(u.email.value, '@') != "" ==>
      name == BeforeFirst(u.email.value, '@')
    ensures !(u.fullName.Some? && u.fullName.value != "") && !(u.email.Some? && BeforeFirst(u.email.value, '@') != "") ==>
      name == "Admin"
  {
    if u.fullName.Some? && u.fullName.value != "" then u.fullName.value
    else if u.email.Some? && BeforeFirst(u.email.value, '@') != "" then BeforeFirst(u.email.value, '@')
    else "Admin"
  }

  function SendMagicLink(email: Option<string>, users: Result<seq<AuthUser>>, random: seq<byte>, now: int,
                         tokens: seq<TokenRow>, insertOk: bool, development: bool,
                         mailEnv: EmailConfig.MailEnv, appUrl: string, mailOk: bool): (out: MagicLinkOutcome)
    requires |random| == TokenBytes
    ensures !Given(email) ==> out.response == MagicLinkError(400, "Email is required")
    ensures Given(email) && !ValidEmail(email.value) ==> out.response == MagicLinkError(400, "Invalid email format")
    ensures Given(email) && ValidEmail(email.value) && users.Err? ==> out.response == MagicLinkError(500, "Failed to verify user")
    ensures Given(email) && ValidEmail(email.value) && users.Ok? && UserWithEmail(users.value, email.value).None? ==>
      out.response == MagicLinkError(404, "User not found")
    ensures Given(email) && ValidEmail(email.value) && users.Ok? && UserWithEmail(users.value, email.value).Some? &&
            !insertOk ==>
      out.response == MagicLinkError(500, "Failed to create auth token")
    ensures out.response.MagicLinkSent? <==>
      Given(email) && ValidEmail(email.value) && users.Ok? && UserWithEmail(users.value, email.value).Some? && insertOk
    ensures out.response.MagicLinkSent? ==>
      out.tokens == tokens + [TokenRow(email.value, Hex(random), now + TokenLifetime, false)] &&
      |Hex(random)| == 64 &&
      out.response.message == "Magic link sent successfully" &&
      out.response.token == (if development then Some(Hex(random)) else None) &&
      out.mail == Some(EmailService.SendMagicLinkEmail(mailEnv, appUrl,
        EmailService.MagicLinkParams(email.value, Hex(random), Some(AdminName(UserWithEmail(users.value, email.value).value))),
        mailOk))
    ensures out.response.MagicLinkError? ==> out.tokens == tokens && out.mail.None?
  {
    if !Given(email) then MagicLinkOutcome(MagicLinkError(400, "Email is required"), tokens, None)
    else if !ValidEmail(email.value) then MagicLinkOutcome(MagicLinkError(400, "Invalid email format"), tokens, None)
    else if users.Err? then MagicLinkOutcome(MagicLinkError(500, "Failed to verify user"), tokens, None)
    else match UserWithEmail(users.value, email.value)
      case None => MagicLinkOutcome(MagicLinkError(404, "User not found"), tokens, None)
      case Some(user) =>
        var token := Hex(random);
        if !insertOk then MagicLinkOutcome(MagicLinkError(500, "Failed to create auth token"), tokens, None)
        else
          var row := TokenRow(email.value, token, now + TokenLifetime, false);
          var mail := EmailService.SendMagicLinkEmail(mailEnv, appUrl,
            EmailService.MagicLinkParams(email.value, token, Some(AdminName(user))), mailOk);
          MagicLinkOutcome(MagicLinkSent("Magic link sent successfully", if development then Some(token) else None),
                           tokens + [row], Some(mail))
  }

  /** A failed e-mail changes neither the response nor the stored token. */
  lemma MagicLinkMailIrrelevant(email: Option<string>, users: Result<seq<AuthUser>>, random: seq<byte>, now: int,
                                tokens: seq<TokenRow>, insertOk: bool, development: bool,
                                mailEnv: EmailConfig.MailEnv, appUrl: string)
    requires |random| == TokenBytes
    ensures var sent := SendMagicLink(email, users, random, now, tokens, insertOk, development, mailEnv, appUrl, true);
            var failed := SendMagicLink(email, users, random, now, tokens, insertOk, development, mailEnv, appUrl, false);
            sent.response == failed.response && sent.tokens == failed.tokens &&
            (failed.mail.Some? ==> failed.mail.value.Err?)
  {
  }

  // ---------------------------------------------------------------------
  // POST /api/auth/verify-token

  /** Positions of the unused rows that carry `token`. */
  function LiveRows(tokens: seq<TokenRow>, token: string): (r: seq<nat>)
    ensures forall k :: 0 <= k < |r| ==> r[k] < |tokens| && tokens[r[k]].token == token && !tokens[r[k]].used
    ensures forall i :: 0 <= i < |tokens| && tokens[i].token == token && !tokens[i].used ==> i in r
    ensures forall a, b :: 0 <= a < b < |r| ==> r[a] < r[b]
  {
    if tokens == [] then []
    else
      var last := |tokens| - 1;
      var front := LiveRows(tokens[..last], token);
      LiveRowsStep(tokens, token, front);
      front + (if tokens[last].token == token && !tokens[last].used then [last] else [])
  }

  /** The live rows of all but the last row are live rows of the whole
      table, and every live row before the last is among them. */
  lemma LiveRowsStep(tokens: seq<TokenRow>, token: string, front: seq<nat>)
    requires tokens != []
    requires forall k :: 0 <= k < |front| ==>
      front[k] < |tokens| - 1 && tokens[..|tokens| - 1][front[k]].token == token && !tokens[..|tokens| - 1][front[k]].used
    requires forall i :: 0 <= i < |tokens| - 1 && tokens[..|tokens| - 1][i].token == token && !tokens[..|tokens| - 1][i].used ==> i in front
    ensures forall k :: 0 <= k < |front| ==> tokens[front[k]].token == token && !tokens[front[k]].used
    ensures forall i :: 0 <= i < |tokens| - 1 && tokens[i].token == token && !tokens[i].used ==> i in front
  {
    var init := tokens[..|tokens| - 1];
    forall k | 0 <= k < |front|
      ensures tokens[front[k]] == init[front[k]]
    {
    }
    forall i | 0 <= i < |tokens| - 1
      ensures tokens[i] == init[i]
    {
    }
  }

  datatype VerifyResponse =
    | VerifyError(status: nat, error: string)
    | Verified(message: string, user: AuthUser, sessionUrl: Option<string>)

  datatype VerifyOutcome = VerifyOutcome(response: VerifyResponse, tokens: seq<TokenRow>)

  /** The steps every variant of the handler shares: either an early
      response, or the consumed table, the first listed user, the user the
      token belongs to and the generated link. */
  datatype VerifyStep =
    | Stop(outcome: VerifyOutcome)
    | Pass(tokens: seq<TokenRow>, first: AuthUser, owner: AuthUser, sessionUrl: Option<string>)

  /** The row a token would be redeemed from: the single live row. */
  function RowFor(tokens: seq<TokenRow>, token: string): Option<nat>
  {
    var live := LiveRows(tokens, token);
    if |live| == 1 then Some(live[0]) else None
  }

  function MarkUsed(tokens: seq<TokenRow>, i: nat): seq<TokenRow>
    requires i < |tokens|
  {
    tokens[i := tokens[i].(used := true)]
  }

  function VerifySteps(token: Option<string>, tokens: seq<TokenRow>, now: int, updateOk: bool,
                       users: Result<seq<AuthUser>>, link: Result<Option<string>>): (s: VerifyStep)
    ensures s.Pass? ==>
      token.Some? && RowFor(tokens, token.value).Some? &&
      s.owner.email == Some(tokens[RowFor(tokens, token.value).value].email) &&
      users.Ok? && |users.value| > 0 && s.first == users.value[0]
  {
    if !Given(token) then Stop(VerifyOutcome(VerifyError(400, "Token is required"), tokens))
    else match RowFor(tokens, token.value)
      case None => Stop(VerifyOutcome(VerifyError(400, "Invalid or expired token"), tokens))
      case Some(i) =>
        if now > tokens[i].expiresAt then Stop(VerifyOutcome(VerifyError(400, "Token has expired"), tokens))
        else if !updateOk then Stop(VerifyOutcome(VerifyError(500, "Failed to process token"), tokens))
        else
          var consumed := MarkUsed(tokens, i);
          if users.Err? then Stop(VerifyOutcome(VerifyError(500, "Failed to verify user"), consumed))
          else match UserWithEmail(users.value, tokens[i].email)
            case None => Stop(VerifyOutcome(VerifyError(404, "User not found"), consumed))
            case Some(owner) =>
              if link.Err? then Stop(VerifyOutcome(VerifyError(500, "Failed to create session"), consumed))
              else Pass(consumed, users.value[0], owner, link.value)
  }

  /** A token that is present, held by exactly one unused row and not past
      its expiry. */
  predicate Redeemable(tokens: seq<TokenRow>, token: string, now: int)
  {
    RowFor(tokens, token).Some? && now <= tokens[RowFor(tokens, token).value].expiresAt
  }

  /** The handler as written: the user in the response is the first entry
      of the user list. */
  function VerifyToken(token: Option<string>, tokens: seq<TokenRow>, now: int, updateOk: bool,
                       users: Result<seq<AuthUser>>, link: Result<Option<string>>): (out: VerifyOutcome)
    ensures !Given(token) ==> out == VerifyOutcome(VerifyError(400, "Token is required"), tokens)
    ensures Given(token) && RowFor(tokens, token.value).None? ==>
      out == VerifyOutcome(VerifyError(400, "Invalid or expired token"), tokens)
    ensures Given(token) && RowFor(tokens, token.value).Some? && !Redeemable(tokens, token.value, now) ==>
      out == VerifyOutcome(VerifyError(400, "Token has expired"), tokens)
    ensures Given(token) && Redeemable(tokens, token.value, now) && !updateOk ==>
      out == VerifyOutcome(VerifyError(500, "Failed to process token"), tokens)
    ensures Given(token) && Redeemable(tokens, token.value, now) && updateOk ==>
      out.tokens == MarkUsed(tokens, RowFor(tokens, token.value).value)
    ensures !(Given(token) && Redeemable(tokens, token.value, now) && updateOk) ==> out.tokens == tokens
    ensures Given(token) && Redeemable(tokens, token.value, now) && updateOk && users.Err? ==>
      out.response == VerifyError(500, "Failed to verify user")
    ensures Given(token) && Redeemable(tokens, token.value, now) && updateOk && users.Ok? &&
            UserWithEmail(users.value, tokens[RowFor(tokens, token.value).value].email).None? ==>
      out.response == VerifyError(404, "User not found")
    ensures Given(token) && Redeemable(tokens, token.value, now) && updateOk && users.Ok? &&
            UserWithEmail(users.value, tokens[RowFor(tokens, token.value).value].email).Some? && link.Err? ==>
      out.response == VerifyError(500, "Failed to create session")
    ensures out.response.Verified? <==>
      Given(token) && Redeemable(tokens, token.value, now) && updateOk && users.Ok? &&
      UserWithEmail(users.value, tokens[RowFor(tokens, token.value).value].email).Some? && link.Ok?
    ensures out.response.Verified? ==>
      Given(token) && Redeemable(tokens, token.value, now) && updateOk &&
      users.Ok? && |users.value| > 0 && out.response.user == users.value[0] &&
      out.response.message == "Token verified successfully" && link == Ok(out.response.sessionUrl)
  {
    match VerifySteps(token, tokens, now, updateOk, users, link)
    case Stop(outcome) => outcome
    case Pass(consumed, first, _, url) => VerifyOutcome(Verified("Token verified successfully", first, url), consumed)
  }

  /** The handler with the matched user in the response: the returned user
      is always the one the token was issued to. */
  function VerifyTokenCorrected(token: Option<string>, tokens: seq<TokenRow>, now: int, updateOk: bool,
                                users: Result<seq<AuthUser>>, link: Result<Option<string>>): (out: VerifyOutcome)
    ensures out.tokens == VerifyToken(token, tokens, now, updateOk, users, link).tokens
    ensures out.response.Verified? <==> VerifyToken(token, tokens, now, updateOk, users, link).response.Verified?
    ensures !out.response.Verified? ==> out == VerifyToken(token, tokens, now, updateOk, users, link)
    ensures out.response.Verified? ==>
      Given(token) && Redeemable(tokens, token.value, now) &&
      out.response.user in users.value &&
      out.response.user.email == Some(tokens[RowFor(tokens, token.value).value].email)
  {
    match VerifySteps(token, tokens, now, updateOk, users, link)
    case Stop(outcome) => outcome
    case Pass(consumed, _, owner, url) => VerifyOutcome(Verified("Token verified successfully", owner, url), consumed)
  }

  /** A consumed token can never be redeemed again. */
  lemma VerifySingleUse(token: Option<string>, tokens: seq<TokenRow>, now: int, updateOk: bool,
                        users: Result<seq<AuthUser>>, link: Result<Option<string>>,
                        later: int, updateOk2: bool, users2: Result<seq<AuthUser>>, link2: Result<Option<string>>)
    requires VerifyToken(token, tokens, now, updateOk, users, link).tokens != tokens
    ensures var after := VerifyToken(token, tokens, now, updateOk, users, link).tokens;
            VerifyToken(token, after, later, updateOk2, users2, link2).response == VerifyError(400, "Invalid or expired token")
  {
    var t := token.value;
    var i := RowFor(tokens, t).value;
    MarkUsedKillsToken(tokens, t, i);
  }

  /** Marking the single live row of a token used leaves no live row. */
  lemma MarkUsedKillsToken(tokens: seq<TokenRow>, t: string, i: nat)
    requires i < |tokens| && LiveRows(tokens, t) == [i]
    ensures LiveRows(MarkUsed(tokens, i), t) == []
  {
    var after := MarkUsed(tokens, i);
    forall k | 0 <= k < |after| ensures !(after[k].token == t && !after[k].used) {
      if k != i {
        assert after[k] == tokens[k];
      }
    }
    NoLiveRows(after, t);
  }

  lemma {:induction false} NoLiveRows(tokens: seq<TokenRow>, t: string)
    requires forall k :: 0 <= k < |tokens| ==> !(tokens[k].token == t && !tokens[k].used)
    ensures LiveRows(tokens, t) == []
  {
    if tokens != [] {
      NoLiveRows(tokens[..|tokens| - 1], t);
    }
  }

  /** Expiry is strict: at its expiry instant a token still passes, one
      millisecond later it is refused and stays unused. */
  lemma VerifyExpiryBoundary(t: string, tokens: seq<TokenRow>, users: Result<seq<AuthUser>>, link: Result<Option<string>>)
    requires t != "" && RowFor(tokens, t).Some?
    ensures var at := tokens[RowFor(tokens, t).value].expiresAt;
      VerifyToken(Some(t), tokens, at, true, users, link).tokens == MarkUsed(tokens, RowFor(tokens, t).value) &&
      VerifyToken(Some(t), tokens, at + 1, true, users, link) == VerifyOutcome(VerifyError(400, "Token has expired"), tokens)
  {
  }

  /** The token is spent before the user lookup: a redeemable token whose
      owner is gone still ends up used. */
  lemma VerifyConsumesBeforeLookup(t: string, tokens: seq<TokenRow>, now: int, users: seq<AuthUser>, link: Result<Option<string>>)
    requires t != "" && Redeemable(tokens, t, now)
    requires UserWithEmail(users, tokens[RowFor(tokens, t).value].email).None?
    ensures var out := VerifyToken(Some(t), tokens, now, true, Ok(users), link);
      out.response == VerifyError(404, "User not found") && out.tokens[RowFor(tokens, t).value].used
  {
  }

  /** A freshly issued link is redeemable until its lifetime runs out: the
      row `send-magic-link` stores is the single live row for its token. */
  lemma IssueThenVerify(email: string, users: seq<AuthUser>, random: seq<byte>, now: int, tokens: seq<TokenRow>,
                        development: bool, mailEnv: EmailConfig.MailEnv, appUrl: string, mailOk: bool,
                        later: int, link: Result<Option<string>>)
    requires |random| == TokenBytes
    requires email != "" && ValidEmail(email) && UserWithEmail(users, email).Some?
    requires LiveRows(tokens, Hex(random)) == []
    ensures var issued := SendMagicLink(Some(email), Ok(users), random, now, tokens, true, development, mailEnv, appUrl, mailOk);
      var out := VerifyToken(Some(Hex(random)), issued.tokens, later, true, Ok(users), link);
      (later <= now + TokenLifetime && link.Ok? ==> out.response.Verified?) &&
      (later > now + TokenLifetime ==> out.response == VerifyError(400, "Token has expired"))
  {
    var token := Hex(random);
    var row := TokenRow(email, token, now + TokenLifetime, false);
    IssuedRow(email, users, random, now, tokens, development, mailEnv, appUrl, mailOk);
    FreshRowSingleLive(tokens, row);
    var rows := tokens + [row];
    assert RowFor(rows, token) == Some(|tokens|);
    assert rows[|tokens|].expiresAt == now + TokenLifetime;
  }

  /** A successful `send-magic-link` stores one unused row for the new
      token, valid for the token lifetime. */
  lemma IssuedRow(email: string, users: seq<AuthUser>, random: seq<byte>, now: int, tokens: seq<TokenRow>,
                  development: bool, mailEnv: EmailConfig.MailEnv, appUrl: string, mailOk: bool)
    requires |random| == TokenBytes
    requires email != "" && ValidEmail(email) && UserWithEmail(users, email).Some?
    ensures SendMagicLink(Some(email), Ok(users), random, now, tokens, true, development, mailEnv, appUrl, mailOk).tokens
         == tokens + [TokenRow(email, Hex(random), now + TokenLifetime, false)]
  {
  }

  /** An unused row appended for a token no other row holds unused is the
      single live row of that token. */
  lemma FreshRowSingleLive(tokens: seq<TokenRow>, row: TokenRow)
    requires !row.used && LiveRows(tokens, row.token) == []
    ensures LiveRows(tokens + [row], row.token) == [|tokens|]
  {
    assert (tokens + [row])[..|tokens|] == tokens;
  }

  /** The first listed user is returned even when the token belongs to
      someone else. */
  lemma VerifyTokenReturnsFirstUser()
    ensures var a := AuthUser("id-a", Some("a@x.io"), None);
      var b := AuthUser("id-b", Some("b@x.io"), None);
      var tokens := [TokenRow("b@x.io", "t", 100, false)];
      VerifyToken(Some("t"), tokens, 0, true, Ok([a, b]), Ok(None)).response == Verified("Token verified successfully", a, None) &&
      VerifyTokenCorrected(Some("t"), tokens, 0, true, Ok([a, b]), Ok(None)).response == Verified("Token verified successfully", b, None)
  {
    var tokens := [TokenRow("b@x.io", "t", 100, false)];
    assert LiveRows(tokens, "t") == [0] by {
      assert tokens[..0] == [];
    }
  }

  // ---------------------------------------------------------------------
  // GET /api/auth/check-session

  /** Always HTTP 200; `user` is the admin e-mail or null. */
  datatype SessionCheck = SessionCheck(status: nat, user: Option<string>, sessions: map<string, Session>)

  /** `sessionRead` and `adminRead` are the answers of the session select and
      the `Admins` select. An error from either, or a throw caught by the
      handler, answers null exactly as a missing row does. */
  function CheckSession(cookie: Option<string>, sessions: map<string, Session>, sessionRead: StoreOutcome, now: int,
                        expiredDelete: DeleteOutcome, adminRead: StoreOutcome, admins: seq<string>): (r: SessionCheck)
    ensures r.status == 200
    ensures r.user.Some? <==>
      Given(cookie) && sessionRead == StoreOk && cookie.value in sessions && now <= sessions[cookie.value].expiresAt &&
      adminRead == StoreOk && Count(admins, (a: string) => a == sessions[cookie.value].adminEmail) == 1
    ensures r.user.Some? ==> r.user == Some(sessions[cookie.value].adminEmail)
    ensures Given(cookie) && sessionRead != StoreOk ==> r.user.None? && r.sessions == sessions
    ensures r.sessions != sessions ==>
      Given(cookie) && sessionRead == StoreOk && cookie.value in sessions && now > sessions[cookie.value].expiresAt &&
      expiredDelete == Deleted && r.sessions == sessions - {cookie.value}
  {
    if !Given(cookie) then SessionCheck(200, None, sessions)
    else if sessionRead != StoreOk || cookie.value !in sessions then SessionCheck(200, None, sessions)
    else
      var s := sessions[cookie.value];
      if now > s.expiresAt then
        SessionCheck(200, None, if expiredDelete == Deleted then sessions - {cookie.value} else sessions)
      else if adminRead != StoreOk || Count(admins, (a: string) => a == s.adminEmail) != 1 then
        SessionCheck(200, None, sessions)
      else SessionCheck(200, Some(s.adminEmail), sessions)
  }

  /** An expired session is removed by the first check that sees it, and
      no later check can succeed with that cookie. */
  lemma ExpiredSessionGone(token: string, sessions: map<string, Session>, now: int, adminRead: StoreOutcome,
                           admins: seq<string>, read2: StoreOutcome, later: int, outcome: DeleteOutcome,
                           adminRead2: StoreOutcome, admins2: seq<string>)
    requires token != "" && token in sessions && now > sessions[token].expiresAt
    ensures var first := CheckSession(Some(token), sessions, StoreOk, now, Deleted, adminRead, admins);
      first.user.None? && token !in first.sessions &&
      CheckSession(Some(token), first.sessions, read2, later, outcome, adminRead2, admins2).user.None?
  {
  }

  // ---------------------------------------------------------------------
  // POST /api/auth/logout

  datatype CookieWrite = CookieWrite(name: string, value: string, httpOnly: bool, secure: bool,
                                     sameSite: string, maxAge: int, path: string)

  datatype LogoutOutcome = LogoutOutcome(status: nat, success: bool, cookie: Option<CookieWrite>,
                                         sessions: map<string, Session>)

  function Logout(cookie: Option<string>, sessions: map<string, Session>, delete: DeleteOutcome, production: bool): (r: LogoutOutcome)
    ensures Given(cookie) && delete == DeleteThrows ==>
      r.status == 500 && !r.success && r.cookie.None? && r.sessions == sessions
    ensures !(Given(cookie) && delete == DeleteThrows) ==>
      r.status == 200 && r.success &&
      r.cookie == Some(CookieWrite(SessionCookie, "", true, production, "lax", 0, "/"))
    ensures r.sessions != sessions ==> Given(cookie) && delete == Deleted && r.sessions == sessions - {cookie.value}
  {
    if Given(cookie) && delete == DeleteThrows then LogoutOutcome(500, false, None, sessions)
    else
      var remaining := if Given(cookie) && delete == Deleted then sessions - {cookie.value} else sessions;
      LogoutOutcome(200, true, Some(CookieWrite(SessionCookie, "", true, production, "lax", 0, "/")), remaining)
  }

  /** After a logout that completed, the same cookie no longer opens a
      session. */
  lemma LogoutEndsSession(token: string, sessions: map<string, Session>, production: bool, read: StoreOutcome,
                          now: int, outcome: DeleteOutcome, adminRead: StoreOutcome, admins: seq<string>)
    requires token != ""
    ensures var out := Logout(Some(token), sessions, Deleted, production);
      out.success && CheckSession(Some(token), out.sessions, read, now, outcome, adminRead, admins).user.None?
  {
  }
}
