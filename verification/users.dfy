/**
 * The signed-in user and how the login and signup handlers derive it from
 * the e-mail address typed into the form (src/App.tsx:4-8, 50-52, 60-62).
 */
module Users {

  /** The session's user: the address as typed, its local part, and initials. */
  datatype User = User(email: string, name: string, initials: string)

  predicate IsLowerAscii(c: char) {
    'a' <= c <= 'z'
  }

  /** Upper-casing of one character, over ASCII letters; any other character is kept. */
  function UpperChar(c: char): (u: char)
    ensures !IsLowerAscii(u)
    ensures IsLowerAscii(c) ==> u as int == c as int - 32
    ensures !IsLowerAscii(c) ==> u == c
  {
    if IsLowerAscii(c) then (c as int - 32) as char else c
  }

  /** `toUpperCase` over ASCII: character by character, same length, no lower-case letter left. */
  function UpperAscii(s: string): (r: string)
    ensures |r| == |s|
    ensures forall i :: 0 <= i < |s| ==> r[i] == UpperChar(s[i])
    ensures forall i :: 0 <= i < |r| ==> !IsLowerAscii(r[i])
  {
    if s == [] then [] else [UpperChar(s[0])] + UpperAscii(s[1..])
  }

  /** Upper-casing twice is upper-casing once. */
  lemma UpperAsciiIdempotent(s: string)
    ensures UpperAscii(UpperAscii(s)) == UpperAscii(s)
  {
  }

  /**
   * `email.split('@')[0]`: the part of the address before its first '@',
   * or the whole address when it has none.
   */
  function LocalPart(email: string): (name: string)
    ensures name <= email
    ensures '@' !in name
    ensures |name| < |email| ==> email[|name|] == '@'
    ensures '@' !in email ==> name == email
  {
    if email == [] || email[0] == '@' then [] else [email[0]] + LocalPart(email[1..])
  }

  /** For an address `local@domain` whose local part holds no '@', the name is exactly `local`. */
  lemma LocalPartOfAddress(local: string, domain: string)
    requires '@' !in local
    ensures LocalPart(local + "@" + domain) == local
  {
    var email := local + "@" + domain;
    var name := LocalPart(email);
    assert forall i :: 0 <= i < |local| ==> email[i] == local[i] && email[i] != '@';
    assert email[|local|] == '@';
    assert |name| <= |local| by {
      assert forall i :: 0 <= i < |name| ==> name[i] in name && name[i] == email[i];
    }
    assert |name| == |local|;
    assert name == email[..|name|];
    assert local == email[..|local|];
  }

  function Min(a: int, b: int): int {
    if a < b then a else b
  }

  /** `name.substring(0, 2).toUpperCase()`: the first two characters (all of a shorter name), upper-cased. */
  function Initials(name: string): (r: string)
    ensures |r| == Min(2, |name|)
    ensures forall i :: 0 <= i < |r| ==> r[i] == UpperChar(name[i])
  {
    UpperAscii(name[..Min(2, |name|)])
  }

  /**
   * The user both handlers build: the address itself, the text before its
   * first '@' as name, and the upper-cased first two characters of that name.
   * No validation: any string, the empty one included, yields a user.
   */
  function DeriveUser(email: string): (u: User)
    ensures u.email == email
    ensures u.name <= email && '@' !in u.name
    ensures |u.name| < |email| ==> email[|u.name|] == '@'
    ensures |u.initials| == Min(2, |u.name|)
    ensures forall i :: 0 <= i < |u.initials| ==> u.initials[i] == UpperChar(email[i])
  {
    var name := LocalPart(email);
    User(email, name, Initials(name))
  }

  /** For `local@domain`, the name is `local` and the initials its upper-cased first two characters. */
  lemma DeriveUserOfAddress(local: string, domain: string)
    requires '@' !in local
    ensures DeriveUser(local + "@" + domain).name == local
    ensures DeriveUser(local + "@" + domain).initials == UpperAscii(local[..Min(2, |local|)])
  {
    LocalPartOfAddress(local, domain);
  }

  /** The worked example: jane.doe@example.com signs in as jane.doe with initials JA. */
  lemma JaneDoe()
    ensures DeriveUser("jane.doe@example.com") == User("jane.doe@example.com", "jane.doe", "JA")
  {
    JaneDoeName();
    JaneDoeInitials();
  }

  lemma JaneDoeName()
    ensures LocalPart("jane.doe@example.com") == "jane.doe"
  {
    LocalPartOfAddress("jane.doe", "example.com");
    assert "jane.doe" + "@" + "example.com" == "jane.doe@example.com";
  }

  lemma JaneDoeInitials()
    ensures Initials("jane.doe") == "JA"
  {
  }
}
