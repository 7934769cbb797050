/**
 * The logo section shared by the two branded hero blocks: row 0's first column gives a
 * `<picture>` copy in preference to an `<img>` copy, and the brand subtitle always follows.
 */
module HeroLogo {
  import opened Wrappers
  import opened Authored

  datatype Logo = PictureLogo(picture: string) | ImgLogo(img: string) | NoLogo

  /** The logo section: the copied image, then the subtitle span. */
  datatype LogoSection = LogoSection(logo: Logo, subtitle: string)

  const SUBTITLE := "(risankizumab-rzaa)"

  function LogoOf(rows: seq<Row>): (l: Logo)
    ensures l.PictureLogo? <==> |rows| > 0 && |rows[0]| > 0 && rows[0][0].picture.Some?
    ensures l.ImgLogo? <==> |rows| > 0 && |rows[0]| > 0 && rows[0][0].picture.None? && rows[0][0].img.Some?
    ensures l.PictureLogo? ==> l.picture == rows[0][0].picture.value
    ensures l.ImgLogo? ==> l.img == rows[0][0].img.value
  {
    if |rows| > 0 && |rows[0]| > 0 then
      if rows[0][0].picture.Some? then PictureLogo(rows[0][0].picture.value)
      else if rows[0][0].img.Some? then ImgLogo(rows[0][0].img.value)
      else NoLogo
    else NoLogo
  }

  function LogoSectionOf(rows: seq<Row>): (s: LogoSection)
    ensures s.subtitle == SUBTITLE && s.logo == LogoOf(rows)
  {
    LogoSection(LogoOf(rows), SUBTITLE)
  }
}
