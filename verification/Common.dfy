/** Result types and the file-name supply shared by the models. */
module Common {

  datatype Option<+T> = None | Some(value: T)

  datatype Result<+T> = Ok(value: T) | Err

  datatype Outcome = Pass | Fail

  type Name = nat

  type Content = string

  /** A random file name. Callers learn only that it is not in use. */
  method RandomName(taken: set<Name>) returns (name: Name)
    ensures name !in taken
  {
    name := 0;
    var rest := taken;
    while rest != {}
      invariant rest <= taken
      invariant forall m :: m in taken && m !in rest ==> m < name
    {
      var n :| n in rest;
      rest := rest - {n};
      if name <= n {
        name := n + 1;
      }
    }
  }

  ghost function Pick(files: map<Name, Content>): (n: Name)
    requires files != map[]
    ensures n in files
  {
    assert files.Keys != {};
    var n :| n in files;
    n
  }

  /** What a set of files holds, whatever the files are called. */
  ghost function Contents(files: map<Name, Content>): multiset<Content>
    decreases files.Keys
  {
    if files == map[] then multiset{} else
      Contents(files - {Pick(files)}) + multiset{files[Pick(files)]}
  }

  lemma {:induction false} ContentsWithout(files: map<Name, Content>, name: Name)
    requires name in files
    ensures Contents(files) == Contents(files - {name}) + multiset{files[name]}
    decreases files.Keys
  {
    var n := Pick(files);
    if n != name {
      var both := files - {n} - {name};
      assert both == files - {name} - {n};
      ContentsWithout(files - {n}, name);
      ContentsWithout(files - {name}, n);
      assert Contents(files - {n}) == Contents(both) + multiset{files[name]};
      assert Contents(files - {name}) == Contents(both) + multiset{files[n]};
    }
  }

  lemma {:induction false} SizeOfContents(files: map<Name, Content>)
    ensures |Contents(files)| == |files|
    decreases files.Keys
  {
    if files != map[] {
      var n := Pick(files);
      SizeOfContents(files - {n});
      assert (files - {n}).Keys == files.Keys - {n};
      assert |files| == |files.Keys|;
    }
  }

  lemma ContentsWith(files: map<Name, Content>, name: Name, content: Content)
    requires name !in files
    ensures Contents(files[name := content]) == Contents(files) + multiset{content}
  {
    ContentsWithout(files[name := content], name);
    assert files[name := content] - {name} == files;
  }

  lemma MovedContents(source: map<Name, Content>, target: map<Name, Content>, from: Name, to: Name)
    requires from in source && to !in target
    ensures Contents(source - {from}) + Contents(target[to := source[from]]) == Contents(source) + Contents(target)
    ensures Contents(target[to := source[from]]) + Contents(source - {from}) == Contents(target) + Contents(source)
  {
    ContentsWithout(source, from);
    ContentsWith(target, to, source[from]);
  }
}
