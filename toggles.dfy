/**
 * The boolean environment-variable tests of src/toggles.js. A variable is
 * looked up in an environment object; what is found may be missing
 * (`undefined`), `null`, a boolean or a text.
 */
module Toggles {
  import opened JsText

  /** A value found in the environment object. */
  datatype EnvValue = Undefined | Null | Boolean(b: bool) | Text(s: string)

  /** An environment object: a name that is not a key reads as `undefined`. */
  type ProcessEnv = map<string, EnvValue>

  function Lookup(env: ProcessEnv, name: string): EnvValue
  {
    if name in env then env[name] else Undefined
  }

  /** `x.toString()` for a defined, non-null value. */
  function ValueString(x: EnvValue): string
    requires x.Boolean? || x.Text?
  {
    if x.Boolean? then (if x.b then "true" else "false") else x.s
  }

  /** environmentVariableTrue: defined, not null, and `true` once lowercased. */
  predicate EnvironmentVariableTrue(env: ProcessEnv, name: string)
  {
    var x := Lookup(env, name);
    !x.Undefined? && !x.Null? && ToLower(ValueString(x)) == "true"
  }

  /** environmentVariableFalse: the same test against `false`. */
  predicate EnvironmentVariableFalse(env: ProcessEnv, name: string)
  {
    var x := Lookup(env, name);
    !x.Undefined? && !x.Null? && ToLower(ValueString(x)) == "false"
  }

  /** A character that lowercases to the lower-case letter `l` is `l` or its capital. */
  lemma LowerCharIs(c: char, l: char)
    requires 'a' <= l <= 'z'
    ensures LowerChar(c) == l <==> c == l || c as int == l as int - 32
  {
  }

  /** `s` spells `word` (lower-case letters) in any mix of cases. */
  predicate SpelledAnyCase(s: string, word: string)
  {
    |s| == |word| && forall k :: 0 <= k < |s| ==> s[k] == word[k] || s[k] as int == word[k] as int - 32
  }

  /** Lowercasing gives a lower-case word exactly when the text spells it in any mix of cases. */
  lemma LowerIsWord(s: string, word: string)
    requires forall k :: 0 <= k < |word| ==> 'a' <= word[k] <= 'z'
    ensures ToLower(s) == word <==> SpelledAnyCase(s, word)
  {
    if |s| == |word| {
      forall k | 0 <= k < |s|
        ensures LowerChar(s[k]) == word[k] <==> s[k] == word[k] || s[k] as int == word[k] as int - 32
      {
        LowerCharIs(s[k], word[k]);
      }
      if SpelledAnyCase(s, word) {
        assert ToLower(s) == word;
      }
    }
  }

  /**
   * The test is case-insensitive: it holds exactly for boolean `true` and
   * for the texts that spell `true` in any mix of upper and lower case.
   */
  lemma TrueIffSpelledTrue(env: ProcessEnv, name: string)
    ensures EnvironmentVariableTrue(env, name) <==>
      Lookup(env, name) == Boolean(true) || (Lookup(env, name).Text? && SpelledAnyCase(Lookup(env, name).s, "true"))
  {
    var x := Lookup(env, name);
    if x.Text? {
      LowerIsWord(x.s, "true");
    } else if x.Boolean? {
      LowerIsWord(ValueString(x), "true");
    }
  }

  /** The same for `false`. */
  lemma FalseIffSpelledFalse(env: ProcessEnv, name: string)
    ensures EnvironmentVariableFalse(env, name) <==>
      Lookup(env, name) == Boolean(false) || (Lookup(env, name).Text? && SpelledAnyCase(Lookup(env, name).s, "false"))
  {
    var x := Lookup(env, name);
    if x.Text? {
      LowerIsWord(x.s, "false");
    } else if x.Boolean? {
      LowerIsWord(ValueString(x), "false");
    }
  }

  /** An absent or null variable is neither true nor false. */
  lemma MissingIsNeither(env: ProcessEnv, name: string)
    requires name !in env || env[name] == Null
    ensures !EnvironmentVariableTrue(env, name) && !EnvironmentVariableFalse(env, name)
  {
  }

  /** No variable is both true and false. */
  lemma NeverBoth(env: ProcessEnv, name: string)
    ensures !(EnvironmentVariableTrue(env, name) && EnvironmentVariableFalse(env, name))
  {
    if EnvironmentVariableTrue(env, name) {
      assert |ToLower(ValueString(Lookup(env, name)))| == 4;
    }
  }

  /** The case oracles: `TRUE`, `True`, `true` and boolean `true` are all true. */
  lemma TrueSpellings(name: string)
    ensures EnvironmentVariableTrue(map[name := Text("TRUE")], name)
    ensures EnvironmentVariableTrue(map[name := Text("True")], name)
    ensures EnvironmentVariableTrue(map[name := Text("true")], name)
    ensures EnvironmentVariableTrue(map[name := Boolean(true)], name)
    ensures EnvironmentVariableFalse(map[name := Text("FALSE")], name)
    ensures EnvironmentVariableFalse(map[name := Boolean(false)], name)
    ensures !EnvironmentVariableTrue(map[name := Text("yes")], name)
  {
    TrueIffSpelledTrue(map[name := Text("TRUE")], name);
    TrueIffSpelledTrue(map[name := Text("True")], name);
    TrueIffSpelledTrue(map[name := Text("true")], name);
    FalseIffSpelledFalse(map[name := Text("FALSE")], name);
  }
}
