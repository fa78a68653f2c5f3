/** Path-template normalisation, `modify_path_template` (src/lib.rs:264-279): every
    `{name}` placeholder becomes `:` followed by the snake-cased name, and an opening
    brace without a closing one is dropped. */
module PathTemplate {
  import opened Wrappers
  import opened Strings
  import opened Casing

  function ModifyPathTemplate(path: string, snake: string -> string): (r: string)
    requires KeepsBraceCount(snake)
    ensures '{' !in r
    ensures '{' !in path ==> r == path
    decreases Count('{', path)
  {
    match SplitOnce(path, '{')
    case None => path
    case Some((l, r)) =>
      SpliceRemovesBrace(path, l, r, snake);
      ModifyPathTemplate(l + AfterBrace(r, snake), snake)
  }

  /** What replaces the text after the first `{`: the placeholder up to the next `}`
      as `:` and its converted name, or, with no `}`, the text itself. */
  function AfterBrace(r: string, snake: string -> string): string
  {
    match SplitOnce(r, '}')
    case Some((name, rest)) => ":" + snake(name) + rest
    case None => r
  }

  /** One rewriting step removes one opening brace and adds none, so the recursion ends. */
  lemma SpliceRemovesBrace(path: string, l: string, r: string, snake: string -> string)
    requires KeepsBraceCount(snake)
    requires path == l + "{" + r && '{' !in l
    ensures Count('{', l + AfterBrace(r, snake)) < Count('{', path)
  {
    CountConcat('{', l + "{", r);
    CountConcat('{', l, "{");
    CountConcat('{', l, AfterBrace(r, snake));
    match SplitOnce(r, '}')
    case None =>
    case Some((name, rest)) =>
      CountConcat('{', name + "}", rest);
      CountConcat('{', name, "}");
      CountConcat('{', ":" + snake(name), rest);
      CountConcat('{', ":", snake(name));
  }

  /** Normalising a normalised path changes nothing. */
  lemma ModifyIdempotent(path: string, snake: string -> string)
    requires KeepsBraceCount(snake)
    ensures ModifyPathTemplate(ModifyPathTemplate(path, snake), snake) == ModifyPathTemplate(path, snake)
  {
  }

  /** A brace-free prefix is copied through unchanged. */
  lemma {:induction false} ModifyKeepsPrefix(pre: string, s: string, snake: string -> string)
    requires KeepsBraceCount(snake)
    requires '{' !in pre
    ensures ModifyPathTemplate(pre + s, snake) == pre + ModifyPathTemplate(s, snake)
    decreases Count('{', s)
  {
    match SplitOnce(s, '{')
    case None =>
      assert '{' !in pre + s;
    case Some((l, r)) =>
      var after := AfterBrace(r, snake);
      SpliceRemovesBrace(s, l, r, snake);
      ModifyStep(l, r, snake);
      ModifyStep(pre + l, r, snake);
      ModifyKeepsPrefix(pre, l + after, snake);
      Reassociate(l, "{", r);
      assert s == l + ("{" + r);
      Reassociate(pre, l, "{" + r);
      Reassociate(pre, l, after);
      calc {
        ModifyPathTemplate(pre + s, snake);
        ModifyPathTemplate((pre + l) + ("{" + r), snake);
        ModifyPathTemplate((pre + l) + after, snake);
        ModifyPathTemplate(pre + (l + after), snake);
        pre + ModifyPathTemplate(l + after, snake);
        pre + ModifyPathTemplate(s, snake);
      }
  }

  /** The definition of `ModifyPathTemplate`, one step, with the split point given. */
  lemma ModifyStep(l: string, r: string, snake: string -> string)
    requires KeepsBraceCount(snake)
    requires '{' !in l
    ensures ModifyPathTemplate(l + ("{" + r), snake) == ModifyPathTemplate(l + AfterBrace(r, snake), snake)
  {
    assert l + ("{" + r) == l + "{" + r;
    SplitOnceAt(l, '{', r);
    SpliceRemovesBrace(l + "{" + r, l, r, snake);
  }

  /** The first placeholder `{name}` is replaced by `:` and the converted name. */
  lemma PlaceholderStep(l: string, name: string, rest: string, snake: string -> string)
    requires KeepsBraceCount(snake)
    requires '{' !in l && '}' !in name
    ensures ModifyPathTemplate(l + "{" + name + "}" + rest, snake)
         == ModifyPathTemplate(l + ":" + snake(name) + rest, snake)
  {
    assert l + "{" + name + "}" + rest == l + "{" + (name + "}" + rest);
    SplitOnceAt(l, '{', name + "}" + rest);
    SplitOnceAt(name, '}', rest);
    assert l + (":" + snake(name) + rest) == l + ":" + snake(name) + rest;
  }

  /** A brace-free placeholder is rewritten in place and the rest is normalised on its own. */
  lemma Placeholder(l: string, name: string, rest: string, snake: string -> string)
    requires KeepsBraceCount(snake)
    requires '{' !in l && '{' !in name && '}' !in name
    ensures ModifyPathTemplate(l + "{" + name + "}" + rest, snake)
         == l + ":" + snake(name) + ModifyPathTemplate(rest, snake)
  {
    PlaceholderStep(l, name, rest, snake);
    assert Count('{', snake(name)) <= Count('{', name);
    CountConcat('{', l + ":", snake(name));
    CountConcat('{', l, ":");
    ModifyKeepsPrefix(l + ":" + snake(name), rest, snake);
  }

  /** An opening brace without a closing brace after it is dropped; the text after it is
      kept and normalised. */
  lemma UnmatchedBrace(l: string, r: string, snake: string -> string)
    requires KeepsBraceCount(snake)
    requires '{' !in l && '}' !in r
    ensures ModifyPathTemplate(l + "{" + r, snake) == l + ModifyPathTemplate(r, snake)
  {
    SplitOnceAt(l, '{', r);
    ModifyKeepsPrefix(l, r, snake);
  }

  /** Several placeholders are each rewritten, in order. */
  lemma TwoPlaceholders(a: string, x: string, b: string, y: string, snake: string -> string)
    requires KeepsBraceCount(snake)
    requires '{' !in a && '{' !in b && '{' !in x && '}' !in x && '{' !in y && '}' !in y
    ensures ModifyPathTemplate(a + "{" + x + "}" + b + "{" + y + "}", snake)
         == a + ":" + snake(x) + b + ":" + snake(y)
  {
    Placeholder(b, y, [], snake);
    Regroup(a, x, b, y, snake(x), snake(y));
    Placeholder(a, x, b + "{" + y + "}", snake);
  }

  lemma Regroup(a: string, x: string, b: string, y: string, sx: string, sy: string)
    ensures b + "{" + y + "}" + [] == b + "{" + y + "}"
    ensures a + "{" + x + "}" + b + "{" + y + "}" == a + "{" + x + "}" + (b + "{" + y + "}")
    ensures a + ":" + sx + (b + ":" + sy + []) == a + ":" + sx + b + ":" + sy
  {
  }

  /** "/a/{fooBar}/b/{baz}" becomes "/a/:" + snake("fooBar") + "/b/:" + snake("baz"). */
  lemma TwoPlaceholdersExample(snake: string -> string)
    requires KeepsBraceCount(snake)
    ensures ModifyPathTemplate("/a/{fooBar}/b/{baz}", snake) == "/a/:" + snake("fooBar") + "/b/:" + snake("baz")
  {
    ExampleSegments(snake("fooBar"), snake("baz"));
    TwoPlaceholders("/a/", "fooBar", "/b/", "baz", snake);
  }

  lemma ExampleSegments(sx: string, sy: string)
    ensures "/a/{fooBar}/b/{baz}" == "/a/" + "{" + "fooBar" + "}" + "/b/" + "{" + "baz" + "}"
    ensures "/a/:" + sx + "/b/:" + sy == "/a/" + ":" + sx + "/b/" + ":" + sy
  {
  }
}
