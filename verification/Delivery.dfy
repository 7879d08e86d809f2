/** From the exported sheets to the stored objects: GenerateSchematicImage,
    GenerateRender and UploadToStorage taken together. */
module Delivery {
  import opened BuildTask
  import opened Decimal
  import opened Manifest
  import opened Storage

  /** The logs directory when NewPCB returns: the copied sheets, and the two PCB
      renders that GenerateRender writes after them. */
  function LogsOf(logs: map<string, string>, project: string, bases: seq<string>, sheets: map<string, string>,
                  lower: char -> char, front: string, back: string): map<string, string>
    requires forall base <- bases :: base in sheets
  {
    CopyAll(logs, project, bases, sheets, lower)["front.svg" := front]["back.svg" := back]
  }

  /** What NewPCB hands to the upload for these sheets. */
  function ProjectOf(zip: string, logs: map<string, string>, project: string, bases: seq<string>,
                     sheets: map<string, string>, lower: char -> char, front: string, back: string): Project
    requires forall base <- bases :: base in sheets
  {
    Project(Some(zip), LogsOf(logs, project, bases, sheets, lower, front, back),
            ManifestNames(Schematics(project, bases, lower)))
  }

  ghost predicate Holds(objects: map<string, string>, taskID: string, name: string, content: string) {
    var path := taskID + "/" + name + ".svg";
    path in objects && objects[path] == content
  }

  /** The file of a sheet is not one of the PCB renders'. */
  lemma SheetFile(project: string, base: string, lower: char -> char)
    ensures var name := RenderOf(project, base, lower).name;
            SvgFile(name) == FileOf(project, base, lower) && SvgFile(name) != "front.svg" && SvgFile(name) != "back.svg"
  {
    hide SheetOf;
    var name := RenderOf(project, base, lower).name;
    assert name[0] == 's' && SvgFile(name)[0] == 's';
  }

  lemma SheetIsInManifest(project: string, bases: seq<string>, lower: char -> char, i: nat)
    requires i < |bases|
    ensures RenderOf(project, bases[i], lower).name in ManifestNames(Schematics(project, bases, lower))
  {
    hide SheetOf, RenderOf, StableSort;
    var all, rs := RendersOf(project, bases, lower), Schematics(project, bases, lower);
    StableSortSorts(all);
    assert all[i] in multiset(all);
    assert all[i] in multiset(rs);
    var j :| 0 <= j < |rs| && rs[j] == all[i];
    assert ManifestNames(rs)[j + 2] == rs[j].name;
  }

  lemma PcbRendersAreInManifest(rs: seq<Render>)
    ensures "front" in ManifestNames(rs) && "back" in ManifestNames(rs)
  {
    assert ManifestNames(rs)[0] == "front" && ManifestNames(rs)[1] == "back";
  }

  /** One stored object against the file it was sent from. */
  lemma StoredSheet(objects: map<string, string>, taskID: string, zip: string, logs: map<string, string>,
                    project: string, bases: seq<string>, sheets: map<string, string>, lower: char -> char,
                    front: string, back: string, i: nat)
    requires forall base <- bases :: base in sheets
    requires i < |bases|
    requires AllStored(objects, taskID, zip, LogsOf(logs, project, bases, sheets, lower, front, back),
                       ManifestNames(Schematics(project, bases, lower)))
    ensures Holds(objects, taskID, RenderOf(project, bases[i], lower).name, sheets[bases[i]])
            <==> HoldsOwnSheet(CopyAll(logs, project, bases, sheets, lower), project, bases[i], sheets, lower)
  {
    hide RenderOf, Schematics, CopyAll, FileOf, ManifestNames;
    SheetFile(project, bases[i], lower);
    SheetIsInManifest(project, bases, lower, i);
  }

  /** When the handler reports success, the object of every sheet holds that sheet's
      own image if and only if sheets that share a render name have the same
      content, so always when their tokens are distinct; and the PCB renders are
      where they belong in any case. */
  lemma SheetsAreDelivered(f: Filer, taskID: string, zip: string, logs: map<string, string>, project: string,
                           bases: seq<string>, sheets: map<string, string>, lower: char -> char,
                           front: string, back: string)
    requires forall base <- bases :: base in sheets
    requires Delivers(f, taskID, ProjectOf(zip, logs, project, bases, sheets, lower, front, back))
    ensures var objects := Objects(f.posts);
            && ((forall i :: 0 <= i < |bases| ==>
                   Holds(objects, taskID, RenderOf(project, bases[i], lower).name, sheets[bases[i]]))
                <==> (forall i, j :: 0 <= i < j < |bases| && ShareName(project, bases[i], bases[j], lower) ==>
                        sheets[bases[i]] == sheets[bases[j]]))
            && Holds(objects, taskID, "front", front) && Holds(objects, taskID, "back", back)
  {
    hide RenderOf, Schematics, CopyAll, Objects, Holds, HoldsOwnSheet, ShareName;
    FilesHoldOwnSheets(logs, project, bases, sheets, lower);
    forall i | 0 <= i < |bases|
      ensures Holds(Objects(f.posts), taskID, RenderOf(project, bases[i], lower).name, sheets[bases[i]])
              <==> HoldsOwnSheet(CopyAll(logs, project, bases, sheets, lower), project, bases[i], sheets, lower)
    {
      StoredSheet(Objects(f.posts), taskID, zip, logs, project, bases, sheets, lower, front, back, i);
    }
    StoredPcb(Objects(f.posts), taskID, zip, logs, project, bases, sheets, lower, front, back);
  }

  lemma StoredPcb(objects: map<string, string>, taskID: string, zip: string, logs: map<string, string>, project: string,
                  bases: seq<string>, sheets: map<string, string>, lower: char -> char, front: string, back: string)
    requires forall base <- bases :: base in sheets
    requires AllStored(objects, taskID, zip, LogsOf(logs, project, bases, sheets, lower, front, back),
                       ManifestNames(Schematics(project, bases, lower)))
    ensures Holds(objects, taskID, "front", front) && Holds(objects, taskID, "back", back)
  {
    hide RenderOf, Schematics, CopyAll, ManifestNames, SvgPath;
    PcbRendersAreInManifest(Schematics(project, bases, lower));
    assert SvgFile("front") == "front.svg" && SvgFile("back") == "back.svg";
    assert "front.svg"[0] != "back.svg"[0];
  }

  /** Distinct tokens, so distinct names: nothing has to be shared. */
  lemma DistinctNamesShareNothing(project: string, bases: seq<string>, sheets: map<string, string>, lower: char -> char)
    requires forall base <- bases :: base in sheets
    requires Distinct(ManifestNames(Schematics(project, bases, lower)))
    ensures forall i, j :: 0 <= i < j < |bases| && ShareName(project, bases[i], bases[j], lower) ==>
              sheets[bases[i]] == sheets[bases[j]]
  {
    hide RenderOf, SheetOf, Schematics, ManifestNames, Distinct;
    NamesAreDistinct(project, bases, lower);
    forall i, j | 0 <= i < j < |bases|
      ensures !ShareName(project, bases[i], bases[j], lower)
    {
      NamesFollowSheets(project, bases[i], bases[j], lower);
    }
  }
}
