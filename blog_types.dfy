/**
 * The records of `src/types/blog.ts`: a generated post and its sections.
 * `bulletPoints?: string[]` is an `Option`, `wordCount: number` a `nat`
 * (it is a count), and the `Date` of `generatedAt` is kept as an opaque
 * integer time stamp supplied by the caller.
 */
module BlogTypes {
  import opened Wrappers

  datatype Section = Section(
    heading: string,
    paragraphs: seq<string>,
    bulletPoints: Option<seq<string>>)

  datatype BlogContent = BlogContent(
    title: string,
    introduction: string,
    sections: seq<Section>,
    conclusion: string,
    wordCount: nat,
    topic: string,
    generatedAt: int)
}
