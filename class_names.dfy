/**
 * The naming scheme shared by the class tables: a candidate name for each side of the 1.17
 * package refactoring, with every "{v}" replaced by the server's version string, loaded by name.
 */
module ClassNames {
  import opened Wrappers
  import opened Reflect
  import opened JavaStrings

  /** The classes the server's class loader can load, by fully qualified name. */
  type ClassLoader = map<TypeName, ClassInfo>

  const Placeholder: string := "{v}"

  /** Class.forName: the empty name and any name the loader does not know throw. */
  function ForName(loader: ClassLoader, name: TypeName): (r: Result<ClassInfo>)
    ensures r.Ok? <==> name != "" && name in loader
    ensures r.Ok? ==> r.value == loader[name]
    ensures r.Throw? ==> r.ex == ClassNotFound
  {
    if name != "" && name in loader then Ok(loader[name]) else Throw(ClassNotFound)
  }

  /** The name to load: the after- or before-refactor candidate with the version substituted. */
  function Candidate(afterName: string, beforeName: string, afterRefactor: bool, version: string): string {
    Replace(if afterRefactor then afterName else beforeName, Placeholder, version)
  }

  /** Every opening brace of the name starts a "{v}" placeholder. */
  predicate BracesOnlyInPlaceholder(s: string) {
    forall i :: 0 <= i < |s| && s[i] == '{' ==> i + 3 <= |s| && s[i..i + 3] == Placeholder
  }

  /** Substituting a brace-free version leaves no brace, hence no placeholder, in the name. */
  lemma {:induction false} SubstitutionComplete(s: string, version: string)
    requires BracesOnlyInPlaceholder(s) && '{' !in version
    ensures '{' !in Replace(s, Placeholder, version)
    decreases |s|
  {
    if |s| < 3 {
      assert forall i :: 0 <= i < |s| ==> s[i] != '{';
    } else if s[..3] == Placeholder {
      assert BracesOnlyInPlaceholder(s[3..]) by {
        forall i | 0 <= i < |s[3..]| && s[3..][i] == '{' ensures i + 3 <= |s[3..]| && s[3..][i..i + 3] == Placeholder {
          assert s[i + 3] == '{';
          assert s[3..][i..i + 3] == s[i + 3..i + 6];
        }
      }
      SubstitutionComplete(s[3..], version);
    } else {
      assert s[0] != '{' by {
        if s[0] == '{' {
          assert s[0..3] == s[..3];
        }
      }
      assert BracesOnlyInPlaceholder(s[1..]) by {
        forall i | 0 <= i < |s[1..]| && s[1..][i] == '{' ensures i + 3 <= |s[1..]| && s[1..][i..i + 3] == Placeholder {
          assert s[i + 1] == '{';
          assert s[1..][i..i + 3] == s[i + 1..i + 4];
        }
      }
      SubstitutionComplete(s[1..], version);
    }
  }

  /** A name without braces is loaded as written for every version. */
  lemma VersionIndependent(s: string, v1: string, v2: string)
    requires '{' !in s
    ensures Replace(s, Placeholder, v1) == s && Replace(s, Placeholder, v2) == s
  {
    NoBraceNoPlaceholder(s);
    ReplaceAbsent(s, Placeholder, v1);
    ReplaceAbsent(s, Placeholder, v2);
  }

  lemma {:induction false} NoBraceNoPlaceholder(s: string)
    requires '{' !in s
    ensures !Contains(s, Placeholder)
    decreases |s|
  {
    if |s| >= 3 {
      assert s[..3][0] == s[0];
    }
    if |s| > 0 {
      NoBraceNoPlaceholder(s[1..]);
    }
  }
}
