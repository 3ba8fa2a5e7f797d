/** Allowed-tool lists: exact names, or a prefix followed by a star.  The hook
    chain and the invoker each scan the list with a loop of their own. */
module ToolPatterns {
  import opened Prelude

  /** Whether one entry of an allowed list covers `tool`. */
  predicate Covers(allowed: string, tool: string) {
    allowed == tool ||
    (|allowed| > 0 && allowed[|allowed| - 1] == '*' && StartsWith(tool, allowed[..|allowed| - 1]))
  }

  /** A starred entry covers what begins with the text before its star, and any
      other only itself. */
  lemma CoversExactly(text: string, tool: string)
    ensures Covers(text + "*", tool) <==> |text| <= |tool| && tool[..|text|] == text
    ensures text == "" || text[|text| - 1] != '*' ==> (Covers(text, tool) <==> tool == text)
  {
    assert (text + "*")[..|text|] == text;
  }

  predicate Listed(tool: string, allowedTools: seq<string>) {
    exists i :: 0 <= i < |allowedTools| && Covers(allowedTools[i], tool)
  }

  /** AgentInvoker._tool_matches. */
  method ToolMatches(tool: string, allowedTools: seq<string>) returns (matches: bool)
    ensures matches <==> Listed(tool, allowedTools)
  {
    for i := 0 to |allowedTools|
      invariant forall j :: 0 <= j < i ==> !Covers(allowedTools[j], tool)
    {
      var allowed := allowedTools[i];
      if allowed == tool {
        return true;
      }
      if |allowed| > 0 && allowed[|allowed| - 1] == '*' && StartsWith(tool, allowed[..|allowed| - 1]) {
        return true;
      }
    }
    return false;
  }

  /** The permission scan of AuthChecker.check: a membership test, then the same
      list again for the wildcards. */
  method PermissionScan(tool: string, allowedTools: seq<string>) returns (permitted: bool)
    ensures permitted <==> Listed(tool, allowedTools)
  {
    if tool in allowedTools {
      var i :| 0 <= i < |allowedTools| && allowedTools[i] == tool;
      assert Covers(allowedTools[i], tool);
      return true;
    }
    permitted := false;
    for i := 0 to |allowedTools|
      invariant !permitted
      invariant forall j :: 0 <= j < i ==> !Covers(allowedTools[j], tool)
    {
      var allowed := allowedTools[i];
      if |allowed| > 0 && allowed[|allowed| - 1] == '*' && StartsWith(tool, allowed[..|allowed| - 1]) {
        permitted := true;
        break;
      }
      if tool == allowed {
        permitted := true;
        break;
      }
    }
  }
}
