/** Navigation state and download choice of the graphical installer. */
module Installer {
  import opened Wrappers
  import opened Text

  /** The installer's pages: license, components, installation location. */
  const PageCount := 3

  class InstallerApp {
    var currentPage: nat
    var accepted: bool
    var previousEnabled: bool
    var nextLabel: string
    /** How often the final installation was started. */
    var installs: nat

    /** The page is a real page and the buttons show its state. */
    predicate Valid()
      reads this
    {
      currentPage < PageCount
      && previousEnabled == (currentPage > 0)
      && nextLabel == (if currentPage == PageCount - 1 then "Install" else "Next")
    }

    constructor ()
      ensures Valid() && currentPage == 0 && !accepted && installs == 0
    {
      currentPage := 0;
      accepted := false;
      installs := 0;
      previousEnabled := false;
      nextLabel := "";
      new;
      LoadPage();
    }

    /** `load_page`, button states only. */
    method LoadPage()
      requires currentPage < PageCount
      modifies this`previousEnabled, this`nextLabel
      ensures Valid()
    {
      previousEnabled := currentPage > 0;
      nextLabel := if currentPage == PageCount - 1 then "Install" else "Next";
    }

    /** `next_page`: from the license page only once it is accepted; below the last page it
        advances, on the last page it starts the installation. */
    method NextPage()
      requires Valid()
      modifies this`currentPage, this`previousEnabled, this`nextLabel, this`installs
      ensures Valid() && accepted == old(accepted)
      ensures old(currentPage) == 0 && !accepted ==> currentPage == 0 && installs == old(installs)
      ensures (old(currentPage) > 0 || accepted) && old(currentPage) < PageCount - 1 ==>
                currentPage == old(currentPage) + 1 && installs == old(installs)
      ensures old(currentPage) == PageCount - 1 ==>
                currentPage == old(currentPage) && installs == old(installs) + 1
    {
      if (currentPage == 0 && accepted) || currentPage > 0 {
        if currentPage < PageCount - 1 {
          currentPage := currentPage + 1;
          LoadPage();
        } else {
          installs := installs + 1;
        }
      }
    }

    /** `previous_page`: steps back unless on the first page. */
    method PreviousPage()
      requires Valid()
      modifies this`currentPage, this`previousEnabled, this`nextLabel
      ensures Valid()
      ensures currentPage == if old(currentPage) > 0 then old(currentPage) - 1 else 0
    {
      if currentPage > 0 {
        currentPage := currentPage - 1;
        LoadPage();
      }
    }
  }

  /** `install_component` acts only when the tool is missing or a reinstall is forced. */
  predicate InstallNeeded(toolAvailable: bool, force: bool) {
    !toolAvailable || force
  }

  /** The key of the download URL `install_component` picks, by substring tests on the
      lower-cased system name and the architecture string. */
  function UrlKey(opSys: string, architecture: string): (key: string)
    ensures key in {"mac", "win64", "win32", "linux"}
    ensures key == "mac" <==> Contains(opSys, "mac")
    ensures key in {"win64", "win32"} <==> !Contains(opSys, "mac") && Contains(opSys, "windows")
    ensures key == "win64" <==> !Contains(opSys, "mac") && Contains(opSys, "windows") && Contains(architecture, "64")
  {
    if Contains(opSys, "mac") then "mac"
    else if Contains(opSys, "windows") then (if Contains(architecture, "64") then "win64" else "win32")
    else "linux"
  }

  /** The URL chosen, `urls.get(key)`: missing when the table has no entry for the platform. */
  function ComponentUrl(urls: map<string, string>, opSys: string, architecture: string): (url: Option<string>)
    ensures url.Some? <==> UrlKey(opSys, architecture) in urls
    ensures url.Some? ==> url.value == urls[UrlKey(opSys, architecture)]
  {
    var key := UrlKey(opSys, architecture);
    if key in urls then Some(urls[key]) else None
  }
}
