/**
 * The application header (`src/app/header.js`): on every image-config event
 * it shows the image of that configuration and a short form of its name, the
 * part after the last '/'.
 */
module AppHeader {
  import opened Strings
  import opened ImageData

  /**
   * `image_name.split("/")`, last field: the longest suffix of the name that
   * holds no '/'. It is the whole name when there is no '/', and empty when
   * the name ends with '/'.
   */
  function ShortImageName(imageName: string): (r: string)
    ensures '/' !in r
    ensures |r| <= |imageName| && imageName[|imageName| - |r|..] == r
    ensures |r| < |imageName| ==> imageName[|imageName| - |r| - 1] == '/'
  {
    var fields := Split(imageName, '/');
    SplitLast(imageName, '/');
    fields[|fields| - 1]
  }

  /** The short name drops any directory part: it is the name after the last '/'. */
  lemma ShortImageNameOfPath(directory: string, base: string)
    requires '/' !in base
    ensures ShortImageName(directory + "/" + base) == base
  {
    var name := directory + "/" + base;
    var r := ShortImageName(name);
    var n := |name|;
    assert name[n - |base| - 1] == '/' && name[n - |base|..] == base;
  }

  /** A name without '/' is its own short name. */
  lemma ShortImageNameWithoutSlash(imageName: string)
    requires '/' !in imageName
    ensures ShortImageName(imageName) == imageName
  {
  }

  /** A name that ends with '/' has an empty short name. */
  lemma ShortImageNameOfDirectory(imageName: string)
    requires |imageName| > 0 && imageName[|imageName| - 1] == '/'
    ensures ShortImageName(imageName) == ""
  {
  }

  class Header {
    /** the selected image info; null until an image config is shown */
    var imageInfo: ImageInfo?
    var shortImageName: string

    constructor ()
      ensures imageInfo == null && shortImageName == ""
    {
      imageInfo := null;
      shortImageName := "";
    }

    /**
     * Handles an image-config event; `conf` is what the context returns for
     * the event's config id. A null config leaves the header as it was.
     */
    method OnImageConfigChange(conf: ImageConfig?)
      modifies this
      ensures conf == null ==> imageInfo == old(imageInfo) && shortImageName == old(shortImageName)
      ensures conf != null ==>
        imageInfo == conf.imageInfo && shortImageName == ShortImageName(conf.imageInfo.imageName)
    {
      if conf == null {
        return;
      }
      var imageName := conf.imageInfo.imageName;
      imageInfo := conf.imageInfo;
      var fields := Split(imageName, '/');
      shortImageName := fields[|fields| - 1];
    }
  }
}
