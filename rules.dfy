/**
 * The fragment of the rule language the tests use: `key eq "<s>"` and
 * `anonymous eq <bool>`. Any other rule text is handed to the rule
 * library, which the model takes as a parameter.
 */
module Rules {
  import opened Wrappers
  import opened FlagModel

  datatype Rule = KeyEquals(key: string) | AnonymousEquals(anonymous: bool)

  const KeyPrefix: string := "key eq \""

  /** The rule text of a fragment rule. */
  function Text(r: Rule): (s: string) {
    match r
    case KeyEquals(k) => KeyPrefix + k + "\""
    case AnonymousEquals(b) => if b then "anonymous eq true" else "anonymous eq false"
  }

  /** A key the fragment can quote as written: no double quote and no escape character. */
  predicate PlainKey(k: string) {
    '"' !in k && '\\' !in k
  }

  /** Recognises a fragment rule; None for any other text, including keys with escapes. */
  function Parse(s: string): (r: Option<Rule>)
    ensures r.Some? ==> Text(r.value) == s
    ensures r.Some? && r.value.KeyEquals? ==> PlainKey(r.value.key)
  {
    if s == "anonymous eq true" then Some(AnonymousEquals(true))
    else if s == "anonymous eq false" then Some(AnonymousEquals(false))
    else if |s| > |KeyPrefix| && s[..|KeyPrefix|] == KeyPrefix && s[|s| - 1] == '"'
            && PlainKey(s[|KeyPrefix|..|s| - 1])
    then
      var k := s[|KeyPrefix|..|s| - 1];
      assert s == s[..|KeyPrefix|] + k + [s[|s| - 1]];
      Some(KeyEquals(k))
    else None
  }

  /** Parse undoes Text on every fragment rule whose key is plain. */
  lemma {:induction false} ParseText(r: Rule)
    requires r.KeyEquals? ==> PlainKey(r.key)
    ensures Parse(Text(r)) == Some(r)
  {
    if r.KeyEquals? {
      var s := Text(r);
      assert s[..|KeyPrefix|] == KeyPrefix;
      assert s[|KeyPrefix|..|s| - 1] == r.key;
    }
  }

  /** What a fragment rule means: an exact, case-sensitive key match, or an anonymity match. */
  predicate Selects(rule: Rule, user: User) {
    match rule
    case KeyEquals(k) => user.key == k
    case AnonymousEquals(b) => user.anonymous == b
  }

  /**
   * Whether `rule` selects `user`: the empty rule selects everyone,
   * fragment rules are decided by their own meaning whatever the rule
   * library would say, and any other text is decided by the rule library
   * (which answers false for a malformed rule).
   */
  function Matches(rule: string, user: User, library: (string, User) -> bool): (r: bool)
    ensures rule == "" ==> r
    ensures Parse(rule).Some? ==> (r <==> Selects(Parse(rule).value, user))
    ensures rule != "" && Parse(rule).None? ==> (r <==> library(rule, user))
  {
    if rule == "" then true
    else match Parse(rule)
      case Some(fragment) => Selects(fragment, user)
      case None => library(rule, user)
  }

  /** `key eq "<k>"` selects exactly the users whose key is k, whatever the library says. */
  lemma KeyRuleSelectsThatKey(k: string, user: User, library: (string, User) -> bool)
    requires PlainKey(k)
    ensures Matches(Text(KeyEquals(k)), user, library) <==> user.key == k
  {
    ParseText(KeyEquals(k));
  }

  /** `anonymous eq <b>` selects exactly the users whose anonymity is b. */
  lemma AnonymousRuleSelectsByAnonymity(b: bool, user: User, library: (string, User) -> bool)
    ensures Matches(Text(AnonymousEquals(b)), user, library) <==> user.anonymous == b
  {
    ParseText(AnonymousEquals(b));
  }
}
