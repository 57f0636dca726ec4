/** The User record (app/model/user.js): its fields, the `vir_uid` and e-mail
    patterns, the nickname length, defaults and `statusName`. */
module UserModel {
  import opened Common
  import opened Text

  datatype User = User(
    id: nat,
    vir_uid: string,
    vir_uid_updated: Option<string>,
    nickname: string,
    avatar: string,
    email: string,
    apps_count: int,
    password: string,
    status: int)

  const DefaultAppsCount := 0
  const DefaultStatus := 1
  const DefaultAvatar := "/default_avatar.jpg"

  predicate IsVirUidTail(c: char) {
    IsLower(c) || IsDigit(c) || c == '_' || c == '-'
  }

  /** `^[a-z][a-z0-9_\-]{3,23}$`. */
  predicate VirUidOk(v: string) {
    4 <= |v| <= 24 && IsLower(v[0]) && forall i :: 1 <= i < |v| ==> IsVirUidTail(v[i])
  }

  predicate IsLocalChar(c: char) {
    ('a' <= c <= 'z') || ('A' <= c <= 'Z') || IsDigit(c) || c == '.' || c == '_' || c == '-'
  }

  predicate IsDomainChar(c: char) {
    IsLower(c) || IsDigit(c) || c == '-'
  }

  predicate AllLocal(s: string) { forall i :: 0 <= i < |s| ==> IsLocalChar(s[i]) }
  predicate AllDomain(s: string) { forall i :: 0 <= i < |s| ==> IsDomainChar(s[i]) }
  predicate AllLower(s: string) { forall i :: 0 <= i < |s| ==> IsLower(s[i]) }

  /** The three parts of an address, which the pattern
      `^[a-zA-Z0-9._-]+@[a-z0-9-]{2,}\.[a-z]{2,}$` splits at the only `@` and
      the only `.` after it. */
  predicate EmailPartsOk(local: string, domain: string, tld: string) {
    |local| >= 1 && AllLocal(local) && |domain| >= 2 && AllDomain(domain) && |tld| >= 2 && AllLower(tld)
  }

  /** The e-mail pattern. */
  predicate EmailOk(s: string) {
    var at := IndexOf(s, '@');
    at < |s| &&
    var rest := s[at + 1..];
    var dot := IndexOf(rest, '.');
    dot < |rest| && EmailPartsOk(s[..at], rest[..dot], rest[dot + 1..])
  }

  /** Every address the pattern accepts is such a triple. */
  lemma EmailOkHasParts(s: string)
    requires EmailOk(s)
    ensures exists local, domain, tld :: EmailPartsOk(local, domain, tld) && s == local + "@" + domain + "." + tld
  {
    var at := IndexOf(s, '@');
    var rest := s[at + 1..];
    var dot := IndexOf(rest, '.');
    CutTwice(s, at, dot);
    PartsWitness(s, s[..at], rest[..dot], rest[dot + 1..]);
  }

  /** A string with `@` at `at` and, after it, `.` at `dot` is the three
      parts those two characters separate. */
  lemma CutTwice(s: string, at: nat, dot: nat)
    requires at < |s| && s[at] == '@' && dot < |s[at + 1..]| && s[at + 1..][dot] == '.'
    ensures s == s[..at] + "@" + s[at + 1..][..dot] + "." + s[at + 1..][dot + 1..]
  {
    var rest := s[at + 1..];
    assert rest == rest[..dot] + "." + rest[dot + 1..];
    assert s == s[..at] + "@" + rest;
  }

  lemma PartsWitness(s: string, local: string, domain: string, tld: string)
    requires EmailPartsOk(local, domain, tld) && s == local + "@" + domain + "." + tld
    ensures exists local, domain, tld :: EmailPartsOk(local, domain, tld) && s == local + "@" + domain + "." + tld
  {
  }

  /** And every such triple is accepted. */
  lemma EmailOkOfParts(local: string, domain: string, tld: string)
    requires EmailPartsOk(local, domain, tld)
    ensures EmailOk(local + "@" + domain + "." + tld)
  {
    LocalHasNoAt(local);
    DomainHasNoDot(domain);
    var tail := domain + ['.'] + tld;
    var s := local + ['@'] + tail;
    assert local + "@" + domain + "." + tld == s;
    IndexOfAfter(local, '@', tail);
    assert s[..|local|] == local;
    assert s[|local| + 1..] == tail;
    IndexOfAfter(domain, '.', tld);
    assert tail[..|domain|] == domain;
    assert tail[|domain| + 1..] == tld;
  }

  lemma LocalHasNoAt(local: string)
    requires AllLocal(local)
    ensures '@' !in local
  {
    forall i | 0 <= i < |local| ensures local[i] != '@' {
      assert IsLocalChar(local[i]);
    }
  }

  lemma DomainHasNoDot(domain: string)
    requires AllDomain(domain)
    ensures '.' !in domain
  {
    forall i | 0 <= i < |domain| ensures domain[i] != '.' {
      assert IsDomainChar(domain[i]);
    }
  }

  /** The stored nickname: 2 to 20 UTF-16 code units once trimmed. */
  predicate NicknameOk(nickname: string) {
    2 <= Utf16Length(Trim(nickname)) <= 20
  }

  /** `status` is frozen (0) or normal (1). */
  predicate StatusOk(status: int) {
    status == 0 || status == 1
  }

  /** `statusName`. */
  function StatusName(status: int): string {
    match status
    case 0 => "冻结"
    case 1 => "正常"
    case _ => "未知状态"
  }

  /** The two allowed statuses have different names; anything else, including
      the -1 that deleting a user writes, is reported as unknown. */
  lemma StatusNames(status: int)
    ensures StatusName(status) == "未知状态" <==> !StatusOk(status)
    ensures StatusName(0) != StatusName(1)
    ensures !StatusOk(-1) && StatusName(-1) == "未知状态"
  {
  }
}
